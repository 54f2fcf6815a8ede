/**
 Long-term memories: duplicates are returned instead of stored, conflicting memories are
 superseded, and an update supersedes what it replaces.

 A row's index is its id. The content hash is the normalized content itself; text analysis
 and embedding similarity are parameters, which may differ from one transaction to the next.
 Key and value zero stand for the empty string.
 */
module MemoryStore {
  import opened Wrappers

  datatype Scope = UserScope | WorkspaceScope(workspace: nat)

  /** `active` is the status column; the status inside the stored record is active while `supersededBy` is empty. */
  datatype Memory = Memory(
    owner: nat, scope: Scope, kind: nat, content: nat, hash: nat, key: nat, value: nat,
    active: bool, supersededBy: Option<nat>)

  /** `accepts` rejects empty and sensitive texts; `keyOf` finds a preference's key and value. */
  datatype Config = Config(
    accepts: nat -> bool, normal: nat -> nat, keyOf: nat -> (nat, nat), similar: (nat, nat) -> bool, preference: nat)

  datatype Draft = Draft(owner: nat, scope: Scope, kind: nat, content: nat, key: nat, value: nat)

  // ---------------------------------------------------------------------- create

  /** The key and value found in the draft's own text. */
  function FoundKey(c: Config, d: Draft): (nat, nat) {
    if d.kind == c.preference then c.keyOf(d.content) else (0, 0)
  }

  /** The record to store: a found key replaces the draft's own, otherwise that one stays. */
  function Completed(c: Config, d: Draft): Memory {
    var (key, value) := FoundKey(c, d);
    Memory(d.owner, d.scope, d.kind, d.content, c.normal(d.content),
           if key != 0 then key else d.key, if key != 0 then value else d.value, true, None)
  }

  predicate SamePlace(a: Memory, b: Memory) {
    a.owner == b.owner && a.scope == b.scope
  }

  predicate SameKey(a: Memory, b: Memory) {
    a.key != 0 && a.key == b.key
  }

  datatype Verdict = Duplicate | Conflict | Unrelated

  /** What one active row of the same place means for the new record. */
  function Judge(c: Config, m: Memory, value: nat, row: Memory, replaced: bool): Verdict {
    if replaced then Conflict
    else if row.hash == m.hash || (SameKey(m, row) && value != 0 && value == row.value) then Duplicate
    else if SameKey(m, row) then Conflict
    else if row.kind == m.kind && c.similar(m.content, row.content) then Duplicate
    else Unrelated
  }

  datatype Scan = Known(id: nat) | Fresh(conflicts: seq<nat>)

  function Scanning(c: Config, rows: seq<Memory>, m: Memory, value: nat, replace: Option<nat>): Scan {
    if rows == [] then Fresh([])
    else
      var n := |rows| - 1;
      match Scanning(c, rows[..n], m, value, replace)
      case Known(id) => Known(id)
      case Fresh(conflicts) =>
        if !rows[n].active || !SamePlace(rows[n], m) then Fresh(conflicts)
        else
          match Judge(c, m, value, rows[n], replace == Some(n))
          case Duplicate => Known(n)
          case Conflict => Fresh(conflicts + [n])
          case Unrelated => Fresh(conflicts)
  }

  function Superseded(rows: seq<Memory>, conflicts: seq<nat>, target: nat): (r: seq<Memory>)
    ensures |r| == |rows|
    ensures forall i | 0 <= i < |rows| ::
              r[i] == if i in conflicts then rows[i].(active := false, supersededBy := Some(target)) else rows[i]
  {
    seq(|rows|, i requires 0 <= i < |rows| =>
      if i in conflicts then rows[i].(active := false, supersededBy := Some(target)) else rows[i])
  }

  /** `weak` marks an automatic memory below the confidence or importance threshold. */
  function Creating(c: Config, rows: seq<Memory>, d: Draft, weak: bool, replace: Option<nat>): (seq<Memory>, Result<Option<nat>>) {
    if !c.accepts(d.content) then (rows, Err(ValueError))
    else if weak then (rows, Ok(None))
    else
      var m := Completed(c, d);
      match Scanning(c, rows, m, FoundKey(c, d).1, replace)
      case Known(id) => (rows, Ok(Some(id)))
      case Fresh(conflicts) => (Superseded(rows, conflicts, |rows|) + [m], Ok(Some(|rows|)))
  }

  // ------------------------------------------------------ what a creation decides

  /** The draft's own key, unless one is found in the text of a preference. */
  lemma CompletedExactly(c: Config, d: Draft)
    ensures var m := Completed(c, d);
            var found := d.kind == c.preference && c.keyOf(d.content).0 != 0;
            && m.owner == d.owner && m.scope == d.scope && m.kind == d.kind && m.content == d.content && m.hash == c.normal(d.content)
            && (m.key, m.value) == (if found then c.keyOf(d.content) else (d.key, d.value))
            && m.active && m.supersededBy.None?
  {
  }

  /** The row says the same: the same text, the same value of the same key, or, of another key, a similar text of its kind. */
  predicate SaysTheSame(c: Config, m: Memory, value: nat, row: Memory) {
    var sameKey := m.key != 0 && m.key == row.key;
    || row.hash == m.hash
    || (sameKey && value != 0 && value == row.value)
    || (!sameKey && row.kind == m.kind && c.similar(m.content, row.content))
  }

  /** An active row of the same owner and scope. */
  predicate Neighbour(rows: seq<Memory>, m: Memory, i: int) {
    0 <= i < |rows| && rows[i].active && rows[i].owner == m.owner && rows[i].scope == m.scope
  }

  predicate DuplicateAt(c: Config, rows: seq<Memory>, m: Memory, value: nat, replace: Option<nat>, i: int) {
    Neighbour(rows, m, i) && replace != Some(i) && SaysTheSame(c, m, value, rows[i])
  }

  /** A neighbour that gives way: the one replaced, or one with the same key. */
  predicate ConflictAt(rows: seq<Memory>, m: Memory, replace: Option<nat>, i: int) {
    Neighbour(rows, m, i) && (replace == Some(i) || (m.key != 0 && m.key == rows[i].key))
  }

  /** How a row of the place is judged. */
  lemma JudgedExactly(c: Config, rows: seq<Memory>, m: Memory, value: nat, replace: Option<nat>, i: nat)
    requires Neighbour(rows, m, i)
    ensures var judged := Judge(c, m, value, rows[i], replace == Some(i));
            && (judged.Duplicate? <==> DuplicateAt(c, rows, m, value, replace, i))
            && (!judged.Duplicate? ==> (judged.Conflict? <==> ConflictAt(rows, m, replace, i)))
  {
  }

  lemma SameInPrefix(c: Config, rows: seq<Memory>, m: Memory, value: nat, replace: Option<nat>, n: nat, i: int)
    requires n <= |rows| && i < n
    ensures DuplicateAt(c, rows[..n], m, value, replace, i) == DuplicateAt(c, rows, m, value, replace, i)
    ensures ConflictAt(rows[..n], m, replace, i) == ConflictAt(rows, m, replace, i)
  {
  }

  /** No row before `n` says the same. */
  ghost predicate NoneSaysTheSame(c: Config, rows: seq<Memory>, m: Memory, value: nat, replace: Option<nat>, n: int) {
    forall i {:trigger DuplicateAt(c, rows, m, value, replace, i)} | 0 <= i < n :: !DuplicateAt(c, rows, m, value, replace, i)
  }

  /** `conflicts` are the rows before `n` that give way. */
  ghost predicate GivesWay(rows: seq<Memory>, m: Memory, replace: Option<nat>, conflicts: seq<nat>, n: int) {
    forall i: nat {:trigger i in conflicts} :: i in conflicts <==> i < n && ConflictAt(rows, m, replace, i)
  }

  /** The first duplicate before `n`, or, without one, the rows before `n` that give way. */
  ghost predicate Says(c: Config, rows: seq<Memory>, m: Memory, value: nat, replace: Option<nat>, scan: Scan, n: int) {
    match scan
    case Known(id) => id < n && DuplicateAt(c, rows, m, value, replace, id) && NoneSaysTheSame(c, rows, m, value, replace, id)
    case Fresh(conflicts) => NoneSaysTheSame(c, rows, m, value, replace, n) && GivesWay(rows, m, replace, conflicts, n)
  }

  /** The scan finds the first duplicate, or else exactly the rows that give way. */
  lemma {:induction false} ScanExactly(c: Config, rows: seq<Memory>, m: Memory, value: nat, replace: Option<nat>)
    ensures Says(c, rows, m, value, replace, Scanning(c, rows, m, value, replace), |rows|)
  {
    if rows != [] {
      var n := |rows| - 1;
      ScanExactly(c, rows[..n], m, value, replace);
      PrefixSays(c, rows, m, value, replace, Scanning(c, rows[..n], m, value, replace), n);
      if Neighbour(rows, m, n) { JudgedExactly(c, rows, m, value, replace, n); }
    }
  }

  lemma PrefixSays(c: Config, rows: seq<Memory>, m: Memory, value: nat, replace: Option<nat>, scan: Scan, n: nat)
    requires n <= |rows| && Says(c, rows[..n], m, value, replace, scan, n)
    ensures Says(c, rows, m, value, replace, scan, n)
  {
    forall i | 0 <= i < n
      ensures DuplicateAt(c, rows[..n], m, value, replace, i) == DuplicateAt(c, rows, m, value, replace, i)
    {
      SameInPrefix(c, rows, m, value, replace, n, i);
    }
    forall i | 0 <= i < n ensures ConflictAt(rows[..n], m, replace, i) == ConflictAt(rows, m, replace, i) {
      SameInPrefix(c, rows, m, value, replace, n, i);
    }
  }

  ghost predicate KnownAlready(c: Config, rows: seq<Memory>, m: Memory, value: nat, replace: Option<nat>) {
    exists i: nat {:trigger DuplicateAt(c, rows, m, value, replace, i)} :: DuplicateAt(c, rows, m, value, replace, i)
  }

  /** The record is added at the end, and exactly the rows that give way are superseded by it. */
  ghost predicate Supersedes(rows: seq<Memory>, rows': seq<Memory>, m: Memory, replace: Option<nat>) {
    && |rows'| == |rows| + 1 && rows'[|rows|] == m
    && forall i {:trigger rows'[i]} | 0 <= i < |rows| ::
         rows'[i] == if ConflictAt(rows, m, replace, i)
                     then rows[i].(active := false, supersededBy := Some(|rows|)) else rows[i]
  }

  lemma SupersededExactly(rows: seq<Memory>, m: Memory, replace: Option<nat>, conflicts: seq<nat>)
    requires GivesWay(rows, m, replace, conflicts, |rows|)
    ensures Supersedes(rows, Superseded(rows, conflicts, |rows|) + [m], m, replace)
  {
  }

  /**
   A creation raises exactly for a text that is not accepted and stores nothing that is weak.
   Otherwise it returns the first duplicate and changes nothing, or, without one, stores the
   record and supersedes exactly the rows that give way by it.
   */
  lemma CreatingExactly(c: Config, rows: seq<Memory>, d: Draft, weak: bool, replace: Option<nat>)
    ensures var (rows', r) := Creating(c, rows, d, weak, replace);
            var m := Completed(c, d);
            var value := if d.kind == c.preference then c.keyOf(d.content).1 else 0;
            && (r.Err? <==> !c.accepts(d.content))
            && (r.Ok? && r.value.None? <==> c.accepts(d.content) && weak)
            && (r.Err? || r.value.None? ==> rows' == rows)
            && (c.accepts(d.content) && !weak ==>
                  if KnownAlready(c, rows, m, value, replace)
                  then rows' == rows && DuplicateAt(c, rows, m, value, replace, r.value.value)
                  else r.value.value == |rows| && Supersedes(rows, rows', m, replace))
  {
    var m, value := Completed(c, d), FoundKey(c, d).1;
    ScanExactly(c, rows, m, value, replace);
    if Scanning(c, rows, m, value, replace).Fresh? {
      SupersededExactly(rows, m, replace, Scanning(c, rows, m, value, replace).conflicts);
    }
  }

  // ---------------------------------------------------------------------- update

  function DraftOf(m: Memory, content: nat): Draft {
    Draft(m.owner, m.scope, m.kind, content, m.key, m.value)
  }

  /** The last write of an update, made in a transaction of its own. */
  function Linking(rows: seq<Memory>, id: nat, target: nat): seq<Memory>
    requires id < |rows|
  {
    if id == target then rows else rows[id := rows[id].(active := false, supersededBy := Some(target))]
  }

  /** An update that no other operation interrupts. */
  function Updating(c: Config, rows: seq<Memory>, id: nat, content: nat, owner: nat): (seq<Memory>, Result<nat>) {
    if id >= |rows| || rows[id].owner != owner then (rows, Err(RecordNotFound))
    else
      var (rows', r) := Creating(c, rows, DraftOf(rows[id], content), false, Some(id));
      match r
      case Err(e) => (rows', Err(e))
      case Ok(None) => (rows', Err(RecordNotFound))
      case Ok(Some(saved)) => if id < |rows'| then (Linking(rows', id, saved), Ok(saved)) else (rows', Ok(saved))
  }

  /**
   An update raises exactly for an unknown record, another's record or a text that is not
   accepted, and then changes nothing; otherwise it creates the new text with everything else
   of the old record, and supersedes the old record by what was found or stored.
   */
  lemma UpdatingExactly(c: Config, rows: seq<Memory>, id: nat, content: nat, owner: nat)
    ensures var (rows', r) := Updating(c, rows, id, content, owner);
            && (r.Ok? <==> id < |rows| && rows[id].owner == owner && c.accepts(content))
            && (r.Err? ==> rows' == rows)
            && (r.Ok? ==>
                  var was := rows[id];
                  var d := Draft(was.owner, was.scope, was.kind, content, was.key, was.value);
                  var (created, saved) := Creating(c, rows, d, false, Some(id));
                  && saved == Ok(Some(r.value)) && r.value != id && id < |created| && |rows'| == |created|
                  && (forall i: nat | i < |rows'| ::
                        rows'[i] == if i == id then created[id].(active := false, supersededBy := Some(r.value)) else created[i]))
  {
    if id < |rows| && rows[id].owner == owner {
      var d := DraftOf(rows[id], content);
      ScanExactly(c, rows, Completed(c, d), FoundKey(c, d).1, Some(id));
    }
  }

  // ------------------------------------------------------------------- invariants

  /** Two active memories of one place differ in hash and in any key they have. */
  predicate Distinguished(a: Memory, b: Memory) {
    a.active && b.active && SamePlace(a, b) ==> a.hash != b.hash && !SameKey(a, b)
  }

  ghost predicate Unambiguous(rows: seq<Memory>) {
    forall i, j {:trigger Distinguished(rows[i], rows[j])} | 0 <= i < j < |rows| :: Distinguished(rows[i], rows[j])
  }

  ghost predicate Linked(rows: seq<Memory>) {
    forall i {:trigger rows[i]} | 0 <= i < |rows| ::
      && (rows[i].active <==> rows[i].supersededBy.None?)
      && (rows[i].supersededBy.Some? ==> rows[i].supersededBy.value < |rows|)
  }

  /** Ranks that fall along every supersession. */
  ghost predicate Ranked(rows: seq<Memory>, ranks: seq<nat>) {
    && |ranks| == |rows|
    && (forall i {:trigger ranks[i]} | 0 <= i < |rows| && rows[i].supersededBy.Some? && rows[i].supersededBy.value < |rows| ::
          ranks[rows[i].supersededBy.value] < ranks[i])
  }

  ghost predicate Acyclic(rows: seq<Memory>) {
    exists ranks: seq<nat> :: Ranked(rows, ranks)
  }

  lemma {:induction false} ScanFacts(c: Config, rows: seq<Memory>, m: Memory, value: nat, replace: Option<nat>)
    ensures match Scanning(c, rows, m, value, replace)
            case Known(id) => id < |rows| && rows[id].active && SamePlace(rows[id], m) && replace != Some(id)
            case Fresh(conflicts) =>
              && (forall i {:trigger i in conflicts} | i in conflicts :: i < |rows| && rows[i].active && SamePlace(rows[i], m))
              && (forall i {:trigger rows[i]} | 0 <= i < |rows| && rows[i].active && SamePlace(rows[i], m) && i !in conflicts ::
                    rows[i].hash != m.hash && !SameKey(m, rows[i]) && replace != Some(i))
  {
    if rows != [] {
      ScanFacts(c, rows[..|rows| - 1], m, value, replace);
      assert forall i | 0 <= i < |rows| - 1 :: rows[..|rows| - 1][i] == rows[i];
    }
  }

  lemma CreateKeepsUnambiguous(c: Config, rows: seq<Memory>, d: Draft, weak: bool, replace: Option<nat>)
    requires Unambiguous(rows)
    ensures Unambiguous(Creating(c, rows, d, weak, replace).0)
  {
    var m := Completed(c, d);
    ScanFacts(c, rows, m, FoundKey(c, d).1, replace);
    var rows' := Creating(c, rows, d, weak, replace).0;
    forall i, j | 0 <= i < j < |rows'| ensures Distinguished(rows'[i], rows'[j]) {
      if j < |rows| { assert Distinguished(rows[i], rows[j]); }
    }
  }

  lemma LinkKeepsUnambiguous(rows: seq<Memory>, id: nat, target: nat)
    requires Unambiguous(rows) && id < |rows|
    ensures Unambiguous(Linking(rows, id, target))
  {
    var rows' := Linking(rows, id, target);
    forall i, j | 0 <= i < j < |rows'| ensures Distinguished(rows'[i], rows'[j]) {
      assert Distinguished(rows[i], rows[j]);
    }
  }

  function Raised(ranks: seq<nat>): (r: seq<nat>)
    ensures |r| == |ranks| && forall i | 0 <= i < |ranks| :: r[i] == ranks[i] + 1
  {
    seq(|ranks|, i requires 0 <= i < |ranks| => ranks[i] + 1)
  }

  lemma CreateKeepsLinked(c: Config, rows: seq<Memory>, d: Draft, weak: bool, replace: Option<nat>)
    requires Linked(rows)
    ensures Linked(Creating(c, rows, d, weak, replace).0)
  {
    ScanFacts(c, rows, Completed(c, d), FoundKey(c, d).1, replace);
  }

  lemma CreateKeepsChains(c: Config, rows: seq<Memory>, d: Draft, weak: bool, replace: Option<nat>)
    requires Linked(rows) && Acyclic(rows)
    ensures Acyclic(Creating(c, rows, d, weak, replace).0)
  {
    ScanFacts(c, rows, Completed(c, d), FoundKey(c, d).1, replace);
    var ranks: seq<nat> :| Ranked(rows, ranks);
    var rows' := Creating(c, rows, d, weak, replace).0;
    if rows' != rows {
      assert Ranked(rows', Raised(ranks) + [0]);
    }
  }

  // ----------------------------------------------------------------- chains

  /** Following `n` supersessions from `i` arrives at `j`. */
  predicate LeadsIn(rows: seq<Memory>, i: nat, j: nat, n: nat)
    decreases n
  {
    i < |rows|
    && if n == 0 then i == j
       else rows[i].supersededBy.Some? && LeadsIn(rows, rows[i].supersededBy.value, j, n - 1)
  }

  ghost predicate LeadsTo(rows: seq<Memory>, i: nat, j: nat) {
    exists n: nat :: LeadsIn(rows, i, j, n)
  }

  /** The first supersession of a chain that has one. */
  lemma LeadsOn(rows: seq<Memory>, i: nat, j: nat)
    requires i < |rows| && i != j
    ensures LeadsTo(rows, i, j) <==> rows[i].supersededBy.Some? && LeadsTo(rows, rows[i].supersededBy.value, j)
  {
    if LeadsTo(rows, i, j) {
      var n: nat :| LeadsIn(rows, i, j, n);
      assert LeadsIn(rows, rows[i].supersededBy.value, j, n - 1);
    }
    if rows[i].supersededBy.Some? && LeadsTo(rows, rows[i].supersededBy.value, j) {
      var n: nat :| LeadsIn(rows, rows[i].supersededBy.value, j, n);
      assert LeadsIn(rows, i, j, n + 1);
    }
  }

  /** The ranks that show the new link to be harmless: everything that leads to `id` is lifted above `target`. */
  ghost function Lifted(rows: seq<Memory>, ranks: seq<nat>, id: nat, target: nat): (r: seq<nat>)
    requires |ranks| == |rows| && target < |rows|
    ensures |r| == |rows|
    ensures forall i | 0 <= i < |rows| :: r[i] == ranks[i] + if LeadsTo(rows, i, id) then ranks[target] + 1 else 0
  {
    seq(|rows|, i requires 0 <= i < |rows| => ranks[i] + if LeadsTo(rows, i, id) then ranks[target] + 1 else 0)
  }

  /** A walk from `i` to `id` over links that the new link leaves alone falls in any ranking. */
  lemma {:induction false} WalkFalls(rows: seq<Memory>, rows': seq<Memory>, ranks': seq<nat>, i: nat, id: nat, n: nat)
    requires Ranked(rows', ranks') && |rows'| == |rows| && id < |rows| && LeadsIn(rows, i, id, n)
    requires forall k | 0 <= k < |rows| && k != id :: rows'[k] == rows[k]
    ensures ranks'[id] <= ranks'[i]
    decreases n
  {
    if i != id {
      var next := rows[i].supersededBy.value;
      WalkFalls(rows, rows', ranks', next, id, n - 1);
      assert ranks'[next] < ranks'[i];
    }
  }

  /** The last write of an update keeps every chain finite exactly when the saved record does not lead back. */
  lemma LinkExactly(rows: seq<Memory>, id: nat, target: nat)
    requires Linked(rows) && Acyclic(rows) && id < |rows| && target < |rows| && id != target
    ensures Linked(Linking(rows, id, target))
    ensures Acyclic(Linking(rows, id, target)) <==> !LeadsTo(rows, target, id)
  {
    var rows' := Linking(rows, id, target);
    if LeadsTo(rows, target, id) {
      if Acyclic(rows') {
        var ranks': seq<nat> :| Ranked(rows', ranks');
        var n: nat :| LeadsIn(rows, target, id, n);
        WalkFalls(rows, rows', ranks', target, id, n);
        assert false;
      }
    } else {
      var ranks: seq<nat> :| Ranked(rows, ranks);
      HarmlessLink(rows, ranks, id, target);
    }
  }

  lemma HarmlessLink(rows: seq<Memory>, ranks: seq<nat>, id: nat, target: nat)
    requires Linked(rows) && Ranked(rows, ranks) && id < |rows| && target < |rows| && id != target
    requires !LeadsTo(rows, target, id)
    ensures Ranked(Linking(rows, id, target), Lifted(rows, ranks, id, target))
  {
    var rows', lifted := Linking(rows, id, target), Lifted(rows, ranks, id, target);
    assert LeadsIn(rows, id, id, 0);
    forall i {:trigger lifted[i]} | 0 <= i < |rows'| && rows'[i].supersededBy.Some?
      ensures lifted[rows'[i].supersededBy.value] < lifted[i]
    {
      var next := rows'[i].supersededBy.value;
      if i != id {
        assert ranks[next] < ranks[i];
        LeadsOn(rows, i, id);
      }
    }
  }

  lemma ActiveLeadsNowhere(rows: seq<Memory>, i: nat, j: nat)
    requires Linked(rows) && i < |rows| && rows[i].active && i != j
    ensures !LeadsTo(rows, i, j)
  {
    LeadsOn(rows, i, j);
  }

  /** After `n` supersessions one arrives at an active record. */
  predicate Ends(rows: seq<Memory>, i: nat, n: nat)
    decreases n
  {
    i < |rows|
    && if n == 0 then rows[i].active
       else rows[i].supersededBy.Some? && Ends(rows, rows[i].supersededBy.value, n - 1)
  }

  ghost predicate EndsSomewhere(rows: seq<Memory>, i: nat) {
    exists n: nat :: Ends(rows, i, n)
  }

  /** Following `superseded_by` from any record terminates at an active one. */
  ghost predicate AllEnd(rows: seq<Memory>) {
    forall i {:trigger EndsSomewhere(rows, i)} | 0 <= i < |rows| :: EndsSomewhere(rows, i)
  }

  lemma {:induction false} RankedEnds(rows: seq<Memory>, ranks: seq<nat>, i: nat)
    requires Linked(rows) && Ranked(rows, ranks) && i < |rows|
    ensures EndsSomewhere(rows, i)
    decreases ranks[i]
  {
    if rows[i].active {
      assert Ends(rows, i, 0);
    } else {
      RankedEnds(rows, ranks, rows[i].supersededBy.value);
      var n: nat :| Ends(rows, rows[i].supersededBy.value, n);
      assert Ends(rows, i, n + 1);
    }
  }

  lemma {:induction false} EndsOnce(rows: seq<Memory>, i: nat, m: nat, n: nat)
    requires Linked(rows) && Ends(rows, i, m) && Ends(rows, i, n)
    ensures m == n
    decreases n
  {
    if m > 0 && n > 0 {
      EndsOnce(rows, rows[i].supersededBy.value, m - 1, n - 1);
    }
  }

  ghost function Distance(rows: seq<Memory>, i: nat): (n: nat)
    requires EndsSomewhere(rows, i)
    ensures Ends(rows, i, n)
  {
    var n: nat :| Ends(rows, i, n);
    n
  }

  ghost function Distances(rows: seq<Memory>): (ranks: seq<nat>)
    requires AllEnd(rows)
    ensures |ranks| == |rows| && forall i | 0 <= i < |rows| :: Ends(rows, i, ranks[i])
  {
    seq(|rows|, i requires 0 <= i < |rows| => assert EndsSomewhere(rows, i); Distance(rows, i))
  }

  /** Every chain ends exactly when the supersessions can be ranked. */
  lemma AllEndExactly(rows: seq<Memory>)
    requires Linked(rows)
    ensures AllEnd(rows) <==> Acyclic(rows)
  {
    if AllEnd(rows) {
      var ranks := Distances(rows);
      forall i {:trigger ranks[i]} | 0 <= i < |rows| && rows[i].supersededBy.Some?
        ensures ranks[rows[i].supersededBy.value] < ranks[i]
      {
        assert Ends(rows, i, ranks[i]) && ranks[i] > 0;
        EndsOnce(rows, rows[i].supersededBy.value, ranks[rows[i].supersededBy.value], ranks[i] - 1);
      }
      assert Ranked(rows, ranks);
    }
    if Acyclic(rows) {
      var ranks: seq<nat> :| Ranked(rows, ranks);
      forall i | 0 <= i < |rows| ensures EndsSomewhere(rows, i) {
        RankedEnds(rows, ranks, i);
      }
    }
  }

  // ------------------------------------------------------------- runs of transactions

  /** The rows, and the updates that have saved a record and not yet linked the old one to it. */
  datatype Store = Store(rows: seq<Memory>, inFlight: multiset<(nat, nat)>)

  const EMPTY := Store([], multiset{})

  /**
   An update reads its record and creates the new one, and makes its last write in a later
   transaction. Nothing an update reads of the old record ever changes, so the read and the
   creation are one step. A retrieval writes each record it returns back as it read it,
   when the record was active, at any later time.
   */
  datatype Transaction =
    | Insert(draft: Draft, weak: bool)
    | Begin(id: nat, content: nat, owner: nat)
    | Finish(id: nat, saved: nat)
    | WriteBack(id: nat)

  function Beginning(c: Config, st: Store, id: nat, content: nat, owner: nat): Store {
    if id >= |st.rows| || st.rows[id].owner != owner then st
    else
      var (rows, r) := Creating(c, st.rows, DraftOf(st.rows[id], content), false, Some(id));
      Store(rows, if r.Ok? && r.value.Some? && r.value != Some(id) then st.inFlight + multiset{(id, r.value.value)} else st.inFlight)
  }

  function Commit(c: Config, st: Store, t: Transaction): Store {
    match t
    case Insert(draft, weak) => st.(rows := Creating(c, st.rows, draft, weak, None).0)
    case Begin(id, content, owner) => Beginning(c, st, id, content, owner)
    case Finish(id, saved) =>
      if st.inFlight[(id, saved)] > 0 && id < |st.rows|
      then Store(Linking(st.rows, id, saved), st.inFlight - multiset{(id, saved)}) else st
    case WriteBack(id) => if id < |st.rows| then st.(rows := WritingBack(st.rows, id)) else st
  }

  /** The stored record as it was while active; the status column is not written. */
  function WritingBack(rows: seq<Memory>, id: nat): seq<Memory>
    requires id < |rows|
  {
    rows[id := rows[id].(supersededBy := None)]
  }

  /** Each transaction may see another analysis of the text and another similarity. */
  function Committed(ts: seq<(Config, Transaction)>): Store {
    if ts == [] then EMPTY
    else Commit(ts[|ts| - 1].0, Committed(ts[..|ts| - 1]), ts[|ts| - 1].1)
  }

  /** The transaction is the last write of an update whose saved record leads back to the old one. */
  ghost predicate LinksBack(st: Store, t: Transaction) {
    t.Finish? && st.inFlight[(t.id, t.saved)] > 0 && LeadsTo(st.rows, t.saved, t.id)
  }

  /** The transaction writes a record back that has been superseded since it was read. */
  predicate Revives(st: Store, t: Transaction) {
    t.WriteBack? && t.id < |st.rows| && !st.rows[t.id].active
  }

  ghost predicate Harms(st: Store, t: Transaction) {
    LinksBack(st, t) || Revives(st, t)
  }

  ghost predicate Sound(st: Store) {
    && Unambiguous(st.rows) && Linked(st.rows)
    && forall p {:trigger st.inFlight[p]} | st.inFlight[p] > 0 :: p.0 < |st.rows| && p.1 < |st.rows| && p.0 != p.1
  }

  /** What an update saves is active then, and is not the record it replaces. */
  lemma SavedIsActive(c: Config, rows: seq<Memory>, id: nat, content: nat)
    requires Linked(rows) && id < |rows|
    ensures var (rows', r) := Creating(c, rows, DraftOf(rows[id], content), false, Some(id));
            && |rows| <= |rows'|
            && (r.Ok? ==> r.value.Some? && r.value.value < |rows'| && r.value.value != id && rows'[r.value.value].active)
  {
    var d := DraftOf(rows[id], content);
    ScanFacts(c, rows, Completed(c, d), FoundKey(c, d).1, Some(id));
  }

  lemma CreateKeepsSound(c: Config, st: Store, d: Draft, weak: bool, replace: Option<nat>)
    requires Sound(st)
    ensures Sound(st.(rows := Creating(c, st.rows, d, weak, replace).0))
  {
    CreateKeepsUnambiguous(c, st.rows, d, weak, replace);
    CreateKeepsLinked(c, st.rows, d, weak, replace);
  }

  lemma WriteBackIsIdle(rows: seq<Memory>, id: nat)
    requires Linked(rows) && id < |rows| && rows[id].active
    ensures WritingBack(rows, id) == rows
  {
    assert rows[id].(supersededBy := None) == rows[id];
  }

  /** A superseded record that is written back leads nowhere. */
  lemma RevivedEndsNowhere(rows: seq<Memory>, id: nat)
    requires id < |rows| && !rows[id].active
    ensures !AllEnd(WritingBack(rows, id))
  {
    var rows' := WritingBack(rows, id);
    assert forall n: nat :: !Ends(rows', id, n);
    assert !EndsSomewhere(rows', id);
  }

  lemma BeginningKeepsSound(c: Config, st: Store, id: nat, content: nat, owner: nat)
    requires Sound(st)
    ensures Sound(Beginning(c, st, id, content, owner))
  {
    if id < |st.rows| && st.rows[id].owner == owner {
      CreateKeepsSound(c, st, DraftOf(st.rows[id], content), false, Some(id));
      SavedIsActive(c, st.rows, id, content);
    }
  }

  lemma CommitKeepsSound(c: Config, st: Store, t: Transaction)
    requires Sound(st) && !Revives(st, t)
    ensures Sound(Commit(c, st, t))
  {
    match t
    case Insert(draft, weak) => CreateKeepsSound(c, st, draft, weak, None);
    case Begin(id, content, owner) => BeginningKeepsSound(c, st, id, content, owner);
    case Finish(id, saved) =>
      if st.inFlight[(id, saved)] > 0 {
        LinkKeepsUnambiguous(st.rows, id, saved);
      }
    case WriteBack(id) => if id < |st.rows| { WriteBackIsIdle(st.rows, id); }
  }

  /** One transaction keeps every chain finite exactly when it does not link back. */
  lemma CommitExactly(c: Config, st: Store, t: Transaction)
    requires Sound(st) && Acyclic(st.rows) && !Revives(st, t)
    ensures Acyclic(Commit(c, st, t).rows) <==> !LinksBack(st, t)
  {
    match t
    case Insert(draft, weak) => CreateKeepsChains(c, st.rows, draft, weak, None);
    case Begin(id, content, owner) =>
      if id < |st.rows| && st.rows[id].owner == owner {
        CreateKeepsChains(c, st.rows, DraftOf(st.rows[id], content), false, Some(id));
      }
    case Finish(id, saved) =>
      if st.inFlight[(id, saved)] > 0 {
        LinkExactly(st.rows, id, saved);
      }
    case WriteBack(id) => if id < |st.rows| { WriteBackIsIdle(st.rows, id); }
  }

  /** However transactions interleave, no two active memories of one place share a hash or a key. */
  lemma {:induction false} InterleavingKeepsUnambiguous(ts: seq<(Config, Transaction)>)
    ensures Unambiguous(Committed(ts).rows)
  {
    if ts != [] {
      var n := |ts| - 1;
      InterleavingKeepsUnambiguous(ts[..n]);
      CommitKeepsUnambiguous(ts[n].0, Committed(ts[..n]), ts[n].1);
    }
  }

  lemma CommitKeepsUnambiguous(c: Config, st: Store, t: Transaction)
    requires Unambiguous(st.rows)
    ensures Unambiguous(Commit(c, st, t).rows)
  {
    match t
    case Insert(draft, weak) => CreateKeepsUnambiguous(c, st.rows, draft, weak, None);
    case Begin(id, content, owner) =>
      if id < |st.rows| && st.rows[id].owner == owner {
        CreateKeepsUnambiguous(c, st.rows, DraftOf(st.rows[id], content), false, Some(id));
      }
    case Finish(id, saved) => if id < |st.rows| { LinkKeepsUnambiguous(st.rows, id, saved); }
    case WriteBack(id) => if id < |st.rows| { WriteBackKeepsUnambiguous(st.rows, id); }
  }

  lemma WriteBackKeepsUnambiguous(rows: seq<Memory>, id: nat)
    requires Unambiguous(rows) && id < |rows|
    ensures Unambiguous(WritingBack(rows, id))
  {
    var rows' := WritingBack(rows, id);
    forall i, j | 0 <= i < j < |rows'| ensures Distinguished(rows'[i], rows'[j]) {
      assert Distinguished(rows[i], rows[j]);
    }
  }

  /** After the run, and after every shorter one it extends, every record leads to an active one. */
  ghost predicate AlwaysEnds(ts: seq<(Config, Transaction)>) {
    AllEnd(Committed(ts).rows) && (ts != [] ==> AlwaysEnds(ts[..|ts| - 1]))
  }

  ghost predicate NeverHarms(ts: seq<(Config, Transaction)>) {
    ts != [] ==>
      NeverHarms(ts[..|ts| - 1]) && !Harms(Committed(ts[..|ts| - 1]), ts[|ts| - 1].1)
  }

  lemma {:induction false} HarmlessRunIsSound(ts: seq<(Config, Transaction)>)
    requires NeverHarms(ts)
    ensures Sound(Committed(ts))
  {
    if ts != [] {
      HarmlessRunIsSound(ts[..|ts| - 1]);
      CommitKeepsSound(ts[|ts| - 1].0, Committed(ts[..|ts| - 1]), ts[|ts| - 1].1);
    }
  }

  lemma CommitEndsExactly(c: Config, st: Store, t: Transaction)
    requires Sound(st) && AllEnd(st.rows)
    ensures AllEnd(Commit(c, st, t).rows) <==> !Harms(st, t)
  {
    if Revives(st, t) {
      RevivedEndsNowhere(st.rows, t.id);
    } else {
      AllEndExactly(st.rows);
      CommitExactly(c, st, t);
      CommitKeepsSound(c, st, t);
      AllEndExactly(Commit(c, st, t).rows);
    }
  }

  /**
   On every run of creations, updates and retrievals, interleaved in any way, every record
   leads to an active one all along exactly when no update makes its last write while the
   record it saved already leads back to the one it replaces, and no retrieval writes back a
   record that has been superseded since it was read.
   */
  lemma {:induction false} SupersessionTerminates(ts: seq<(Config, Transaction)>)
    ensures AlwaysEnds(ts) <==> NeverHarms(ts)
  {
    if ts != [] {
      var before, last := ts[..|ts| - 1], ts[|ts| - 1];
      SupersessionTerminates(before);
      if NeverHarms(before) {
        HarmlessRunIsSound(before);
        CommitEndsExactly(last.0, Committed(before), last.1);
      }
    }
  }

  /** A last write is harmless while the saved record is still active. */
  lemma ActiveNeverLinksBack(st: Store, id: nat, saved: nat)
    requires Sound(st) && saved < |st.rows| && st.rows[saved].active
    ensures !LinksBack(st, Finish(id, saved))
  {
    if st.inFlight[(id, saved)] > 0 {
      ActiveLeadsNowhere(st.rows, saved, id);
    }
  }

  /** An update finished before any other transaction is the update as a whole, and never links back. */
  lemma UninterruptedUpdate(c: Config, c': Config, st: Store, id: nat, content: nat, owner: nat)
    requires Sound(st)
    ensures var begun := Commit(c, st, Begin(id, content, owner));
            var (rows, r) := Updating(c, st.rows, id, content, owner);
            if r.Err? then rows == begun.rows == st.rows && begun == st
            else
              var finish := Finish(id, r.value);
              && begun.inFlight[(id, r.value)] > 0 && !LinksBack(begun, finish)
              && Commit(c', begun, finish) == Store(rows, st.inFlight)
  {
    if id < |st.rows| && st.rows[id].owner == owner {
      SavedIsActive(c, st.rows, id, content);
      CommitKeepsSound(c, st, Begin(id, content, owner));
      var (rows, r) := Updating(c, st.rows, id, content, owner);
      if r.Ok? {
        var begun := Commit(c, st, Begin(id, content, owner));
        ActiveNeverLinksBack(begun, id, r.value);
        assert st.inFlight + multiset{(id, r.value)} - multiset{(id, r.value)} == st.inFlight;
      }
    }
  }

  datatype Operation =
    | Create(draft: Draft, weak: bool)
    | Update(id: nat, content: nat, owner: nat)

  function Performing(c: Config, rows: seq<Memory>, op: Operation): seq<Memory> {
    match op
    case Create(draft, weak) => Creating(c, rows, draft, weak, None).0
    case Update(id, content, owner) => Updating(c, rows, id, content, owner).0
  }

  /** A run of whole operations: no transaction falls between the two of an update. */
  function After(ops: seq<(Config, Operation)>): seq<Memory> {
    if ops == [] then [] else Performing(ops[|ops| - 1].0, After(ops[..|ops| - 1]), ops[|ops| - 1].1)
  }

  lemma CommitOne(ts: seq<(Config, Transaction)>, c: Config, t: Transaction)
    ensures Committed(ts + [(c, t)]) == Commit(c, Committed(ts), t)
    ensures NeverHarms(ts + [(c, t)]) <==> NeverHarms(ts) && !Harms(Committed(ts), t)
  {
    assert (ts + [(c, t)])[..|ts|] == ts;
  }

  /** Whole operations are a run of transactions that harms no chain. */
  lemma {:induction false} UninterruptedRun(ops: seq<(Config, Operation)>) returns (ts: seq<(Config, Transaction)>)
    ensures Committed(ts) == Store(After(ops), multiset{}) && NeverHarms(ts)
  {
    ts := [];
    if ops != [] {
      var before := UninterruptedRun(ops[..|ops| - 1]);
      HarmlessRunIsSound(before);
      ts := OperationRun(before, ops[|ops| - 1].0, ops[|ops| - 1].1);
    }
  }

  lemma OperationRun(before: seq<(Config, Transaction)>, c: Config, op: Operation) returns (ts: seq<(Config, Transaction)>)
    requires NeverHarms(before) && Sound(Committed(before))
    ensures Committed(ts) == Store(Performing(c, Committed(before).rows, op), Committed(before).inFlight) && NeverHarms(ts)
  {
    if op.Create? {
      CommitOne(before, c, Insert(op.draft, op.weak));
      ts := before + [(c, Insert(op.draft, op.weak))];
    } else {
      ts := UpdatedRun(before, c, op.id, op.content, op.owner);
    }
  }

  lemma UpdatedRun(before: seq<(Config, Transaction)>, c: Config, id: nat, content: nat, owner: nat)
    returns (ts: seq<(Config, Transaction)>)
    requires NeverHarms(before) && Sound(Committed(before))
    ensures Committed(ts) == Store(Updating(c, Committed(before).rows, id, content, owner).0, Committed(before).inFlight)
    ensures NeverHarms(ts)
  {
    var r := Updating(c, Committed(before).rows, id, content, owner).1;
    UninterruptedUpdate(c, c, Committed(before), id, content, owner);
    CommitOne(before, c, Begin(id, content, owner));
    ts := before + [(c, Begin(id, content, owner))];
    if r.Ok? {
      CommitOne(ts, c, Finish(id, r.value));
      ts := ts + [(c, Finish(id, r.value))];
    }
  }

  /** So no two active memories of one place share a hash or a key, and every record leads to an active one. */
  lemma UninterruptedRunsEnd(ops: seq<(Config, Operation)>)
    ensures Unambiguous(After(ops)) && AllEnd(After(ops))
  {
    var ts := UninterruptedRun(ops);
    InterleavingKeepsUnambiguous(ts);
    SupersessionTerminates(ts);
  }

  // ------------------------------------------------------------------- a run that cycles

  function Plain(content: nat): Memory {
    Memory(0, UserScope, 1, content, content, 0, 0, true, None)
  }

  function PlainDraft(content: nat): Draft {
    Draft(0, UserScope, 1, content, 0, 0)
  }

  /** Texts differ exactly as their numbers do, and nothing else is recognized. */
  ghost predicate PlainTexts(c: Config) {
    && (forall x {:trigger c.accepts(x)} :: c.accepts(x)) && (forall x {:trigger c.normal(x)} :: c.normal(x) == x)
    && (forall x, y {:trigger c.similar(x, y)} :: !c.similar(x, y)) && c.preference != 1
  }

  /**
   Two memories are stored; two updates repeat each other's content, both saving before
   either writes last. They supersede one another: no active record is left.
   */
  lemma InterleavedUpdatesCycle(c: Config) returns (ts: seq<(Config, Transaction)>)
    requires PlainTexts(c)
    ensures var rows := Committed(ts).rows;
            && |rows| == 2 && !AllEnd(rows) && forall i | 0 <= i < |rows| :: !rows[i].active
    ensures !NeverHarms(ts)
  {
    var begun := TwoBegun(c);
    var linked := begun + [(c, Finish(0, 1))];
    ts := linked + [(c, Finish(1, 0))];
    CommitOne(begun, c, Finish(0, 1));
    CommitOne(linked, c, Finish(1, 0));
    var rows := [Plain(1), Plain(2)];
    assert Committed(linked) == Store(Linking(rows, 0, 1), multiset{(1, 0)});
    assert Committed(ts).rows == Linking(Linking(rows, 0, 1), 1, 0);
    NoneEnds(Committed(ts).rows, 0);
    SupersessionTerminates(ts);
  }

  /**
   A memory is stored and updated while a retrieval that read it is under way. The retrieval
   then writes it back: its stored record is active again, and leads nowhere.
   */
  lemma RetrievalRevives(c: Config) returns (ts: seq<(Config, Transaction)>)
    requires PlainTexts(c)
    ensures var rows := Committed(ts).rows;
            && |rows| == 2 && !rows[0].active && rows[0].supersededBy.None? && rows[1].active && !AllEnd(rows)
  {
    var updated := Updated(c);
    ts := updated + [(c, WriteBack(0))];
    CommitOne(updated, c, WriteBack(0));
    RevivedEndsNowhere(Committed(updated).rows, 0);
  }

  lemma Updated(c: Config) returns (ts: seq<(Config, Transaction)>)
    requires PlainTexts(c)
    ensures Committed(ts).rows == [Plain(1).(active := false, supersededBy := Some(1)), Plain(2)]
  {
    var one := OneStored(c);
    CommitOne(one, c, Begin(0, 2, 0));
    FirstReplaced(c);
    ts := one + [(c, Begin(0, 2, 0))];
  }

  lemma FirstReplaced(c: Config)
    requires PlainTexts(c)
    ensures Commit(c, Store([Plain(1)], multiset{}), Begin(0, 2, 0)).rows
         == [Plain(1).(active := false, supersededBy := Some(1)), Plain(2)]
  {
    var rows := [Plain(1)];
    assert rows[..0] == [];
    assert Scanning(c, rows, Completed(c, DraftOf(rows[0], 2)), 0, Some(0)) == Fresh([0]);
    assert Superseded(rows, [0], 1) == [Plain(1).(active := false, supersededBy := Some(1))];
  }

  lemma {:induction false} NoneEndsIn(rows: seq<Memory>, i: nat, n: nat)
    requires forall k | 0 <= k < |rows| :: !rows[k].active
    ensures !Ends(rows, i, n)
    decreases n
  {
    if n > 0 && i < |rows| && rows[i].supersededBy.Some? {
      NoneEndsIn(rows, rows[i].supersededBy.value, n - 1);
    }
  }

  lemma NoneEnds(rows: seq<Memory>, i: nat)
    requires i < |rows| && forall k | 0 <= k < |rows| :: !rows[k].active
    ensures !AllEnd(rows)
  {
    if EndsSomewhere(rows, i) {
      var n: nat :| Ends(rows, i, n);
      NoneEndsIn(rows, i, n);
    }
  }

  lemma FirstStored(c: Config)
    requires PlainTexts(c)
    ensures Commit(c, EMPTY, Insert(PlainDraft(1), false)) == Store([Plain(1)], multiset{})
  {
    assert Creating(c, [], PlainDraft(1), false, None).0 == [Plain(1)];
  }

  lemma SecondStored(c: Config)
    requires PlainTexts(c)
    ensures Commit(c, Store([Plain(1)], multiset{}), Insert(PlainDraft(2), false)) == Store([Plain(1), Plain(2)], multiset{})
  {
    var rows := [Plain(1)];
    assert rows[..0] == [];
    assert Scanning(c, rows, Completed(c, PlainDraft(2)), 0, None) == Fresh([]);
    assert Superseded(rows, [], 1) == rows;
    assert Creating(c, rows, PlainDraft(2), false, None).0 == rows + [Plain(2)];
  }

  lemma OneStored(c: Config) returns (ts: seq<(Config, Transaction)>)
    requires PlainTexts(c)
    ensures Committed(ts) == Store([Plain(1)], multiset{})
  {
    FirstStored(c);
    ts := [(c, Insert(PlainDraft(1), false))];
    CommitOne([], c, Insert(PlainDraft(1), false));
    assert [] + ts == ts;
  }

  lemma TwoStored(c: Config) returns (ts: seq<(Config, Transaction)>)
    requires PlainTexts(c)
    ensures Committed(ts) == Store([Plain(1), Plain(2)], multiset{})
  {
    SecondStored(c);
    var one := OneStored(c);
    CommitOne(one, c, Insert(PlainDraft(2), false));
    ts := one + [(c, Insert(PlainDraft(2), false))];
  }

  lemma TwoBegun(c: Config) returns (ts: seq<(Config, Transaction)>)
    requires PlainTexts(c)
    ensures Committed(ts) == Store([Plain(1), Plain(2)], multiset{(0, 1), (1, 0)})
  {
    var stored := TwoStored(c);
    var rows := [Plain(1), Plain(2)];
    OtherIsFound(c, rows, 0, 2);
    OtherIsFound(c, rows, 1, 1);
    CommitOne(stored, c, Begin(0, 2, 0));
    CommitOne(stored + [(c, Begin(0, 2, 0))], c, Begin(1, 1, 0));
    ts := stored + [(c, Begin(0, 2, 0))] + [(c, Begin(1, 1, 0))];
  }

  /** An update that repeats the other record's content finds that record. */
  lemma OtherIsFound(c: Config, rows: seq<Memory>, id: nat, content: nat)
    requires PlainTexts(c) && rows == [Plain(1), Plain(2)] && id < 2 && content == 2 - id
    ensures Creating(c, rows, DraftOf(rows[id], content), false, Some(id)) == (rows, Ok(Some(1 - id)))
  {
    var m := Completed(c, DraftOf(rows[id], content));
    var first := rows[..1];
    assert first == [Plain(1)] && first[..0] == [];
    if id == 0 {
      assert Scanning(c, first, m, 0, Some(0)) == Fresh([0]);
    } else {
      assert Scanning(c, first, m, 0, Some(1)) == Known(0);
    }
  }

  // -------------------------------------------------------------------- as written

  class MemoryTable {
    var rows: seq<Memory>

    constructor ()
      ensures rows == []
    {
      rows := [];
    }

    /** Reads the active rows of the new record's place, in order. */
    method ScanRows(c: Config, m: Memory, value: nat, replace: Option<nat>) returns (scan: Scan)
      ensures scan == Scanning(c, rows, m, value, replace)
    {
      var conflicts: seq<nat> := [];
      for i := 0 to |rows|
        invariant Scanning(c, rows[..i], m, value, replace) == Fresh(conflicts)
      {
        assert rows[..i + 1][..i] == rows[..i];
        var row := rows[i];
        if row.active && SamePlace(row, m) {
          if replace == Some(i) {
            conflicts := conflicts + [i];
          } else {
            var sameKey := SameKey(m, row);
            if row.hash == m.hash || (sameKey && value != 0 && value == row.value) {
              ScanStops(c, rows, m, value, replace, i + 1);
              return Known(i);
            }
            if sameKey {
              conflicts := conflicts + [i];
            } else if row.kind == m.kind && c.similar(m.content, row.content) {
              ScanStops(c, rows, m, value, replace, i + 1);
              return Known(i);
            }
          }
        }
      }
      assert rows[..|rows|] == rows;
      return Fresh(conflicts);
    }

    method Supersede(conflicts: seq<nat>, id: nat)
      requires forall i | i in conflicts :: i < |rows|
      modifies this
      ensures rows == Superseded(old(rows), conflicts, id)
    {
      for j := 0 to |conflicts|
        invariant rows == Superseded(old(rows), conflicts[..j], id)
      {
        var row := conflicts[j];
        assert row in conflicts;
        SupersededOne(old(rows), conflicts, j, id);
        rows := rows[row := rows[row].(active := false, supersededBy := Some(id))];
      }
      assert conflicts[..|conflicts|] == conflicts;
    }

    /** One transaction: scan, insert, supersede the conflicts. */
    method Create(c: Config, d: Draft, weak: bool, replace: Option<nat>) returns (r: Result<Option<nat>>)
      modifies this
      ensures (rows, r) == Creating(c, old(rows), d, weak, replace)
    {
      if !c.accepts(d.content) {
        return Err(ValueError);
      }
      if weak {
        return Ok(None);
      }
      var (_, value) := FoundKey(c, d);
      var m := Completed(c, d);
      var scan := ScanRows(c, m, value, replace);
      if scan.Known? {
        return Ok(Some(scan.id));
      }
      ScanFacts(c, rows, m, value, replace);
      var id := |rows|;
      rows := rows + [m];
      Supersede(scan.conflicts, id);
      assert rows == Superseded(old(rows), scan.conflicts, id) + [m];
      return Ok(Some(id));
    }

    method Update(c: Config, id: nat, content: nat, owner: nat) returns (r: Result<nat>)
      modifies this
      ensures (rows, r) == Updating(c, old(rows), id, content, owner)
    {
      if id >= |rows| || rows[id].owner != owner {
        return Err(RecordNotFound);
      }
      var created := Create(c, DraftOf(rows[id], content), false, Some(id));
      if created.Err? {
        return Err(created.error);
      }
      if created.value.None? {
        return Err(RecordNotFound);
      }
      var saved := created.value.value;
      if saved != id && id < |rows| {
        rows := rows[id := rows[id].(active := false, supersededBy := Some(saved))];
      }
      return Ok(saved);
    }
  }

  lemma SupersededOne(rows: seq<Memory>, conflicts: seq<nat>, j: nat, target: nat)
    requires j < |conflicts| && conflicts[j] < |rows|
    ensures var before, row := Superseded(rows, conflicts[..j], target), conflicts[j];
            Superseded(rows, conflicts[..j + 1], target) == before[row := before[row].(active := false, supersededBy := Some(target))]
  {
    assert conflicts[..j + 1] == conflicts[..j] + [conflicts[j]];
  }

  /** A duplicate found early decides the whole scan. */
  lemma {:induction false} ScanStops(c: Config, rows: seq<Memory>, m: Memory, value: nat, replace: Option<nat>, n: nat)
    requires n <= |rows| && Scanning(c, rows[..n], m, value, replace).Known?
    ensures Scanning(c, rows, m, value, replace) == Scanning(c, rows[..n], m, value, replace)
    decreases |rows| - n
  {
    if n < |rows| {
      assert rows[..n + 1][..n] == rows[..n];
      ScanStops(c, rows, m, value, replace, n + 1);
    } else {
      assert rows[..n] == rows;
    }
  }
}
