/**
 * Numbered records: the garage and the address book keep records whose ids are a prefix
 * and a session number, save by id or by likeness, and never move or merge a record.
 */
module Records {
  import opened Text
  import opened Decimal

  datatype Record<F> = Record(id: Text, fields: F)
  /** `Off` is the outcome where saving was not asked for. */
  datatype Outcome = Added | Updated | Capacity | Missing | Off
  datatype Saved<F> = Saved(records: seq<Record<F>>, sequence: nat, outcome: Outcome, id: Option<Text>)

  function NumberedId(prefix: Text, n: nat): Text {
    prefix + Digits(n)
  }

  function Ids<F>(rs: seq<Record<F>>): (ids: seq<Text>)
    ensures |ids| == |rs| && forall i :: 0 <= i < |rs| ==> ids[i] == rs[i].id
  {
    seq(|rs|, i requires 0 <= i < |rs| => rs[i].id)
  }

  /** `find` by id; a null id finds nothing. */
  function FindId<F>(rs: seq<Record<F>>, id: Option<Text>): (r: Option<nat>)
    ensures r.Some? ==> r.value < |rs| && id == Some(rs[r.value].id)
    ensures r.None? ==> forall i :: 0 <= i < |rs| ==> id != Some(rs[i].id)
  {
    if rs == [] then None
    else if id == Some(rs[0].id) then Some(0)
    else
      var r := FindId(rs[1..], id);
      if r.None? then None else Some(r.value + 1)
  }

  /** The first record like the given fields. */
  function FindSame<F>(rs: seq<Record<F>>, f: F, same: (F, F) -> bool): (r: Option<nat>)
    ensures r.Some? ==> r.value < |rs| && same(rs[r.value].fields, f) && forall j :: 0 <= j < r.value ==> !same(rs[j].fields, f)
    ensures r.None? ==> forall j :: 0 <= j < |rs| ==> !same(rs[j].fields, f)
  {
    if rs == [] then None
    else if same(rs[0].fields, f) then Some(0)
    else
      var r := FindSame(rs[1..], f, same);
      if r.None? then None else Some(r.value + 1)
  }

  function FindExisting<F>(rs: seq<Record<F>>, editing: Option<Text>, f: F, same: (F, F) -> bool): (r: Option<nat>)
    ensures r.Some? ==> r.value < |rs|
  {
    if FindId(rs, editing).Some? then FindId(rs, editing) else FindSame(rs, f, same)
  }

  /** The `map` that writes the new fields into the record with that id. */
  function Write<F>(rs: seq<Record<F>>, id: Text, f: F): (r: seq<Record<F>>)
    ensures |r| == |rs|
    ensures forall i :: 0 <= i < |rs| ==> r[i] == if rs[i].id == id then Record(id, f) else rs[i]
  {
    seq(|rs|, i requires 0 <= i < |rs| => if rs[i].id == id then Record(id, f) else rs[i])
  }

  function Save<F>(rs: seq<Record<F>>, sequence: nat, prefix: Text, capacity: nat,
                   editing: Option<Text>, f: F, same: (F, F) -> bool): Saved<F>
  {
    var existing := FindExisting(rs, editing, f, same);
    if existing.Some? then
      var id := rs[existing.value].id;
      Saved(Write(rs, id, f), sequence, Updated, Some(id))
    else if |rs| >= capacity then Saved(rs, sequence, Capacity, None)
    else
      var id := NumberedId(prefix, sequence + 1);
      Saved(rs + [Record(id, f)], sequence + 1, Added, Some(id))
  }

  /** The `filter` that deletes the record with that id. */
  function Without<F>(rs: seq<Record<F>>, id: Text): (r: seq<Record<F>>)
    ensures |r| <= |rs|
  {
    if rs == [] then []
    else if rs[0].id == id then Without(rs[1..], id)
    else [rs[0]] + Without(rs[1..], id)
  }

  // ------------------------------------------------------------ ids

  /** The ids in use and the last number given out. */
  datatype Ledger = Ledger(ids: seq<Text>, sequence: nat)

  predicate Distinct(ids: seq<Text>) {
    forall i, j :: 0 <= i < j < |ids| ==> ids[i] != ids[j]
  }

  /** Ids are pairwise distinct and none carries a number that was not given out yet. */
  ghost predicate LedgerOk(prefix: Text, a: Ledger) {
    && Distinct(a.ids)
    && (forall n: nat :: n > a.sequence ==> NumberedId(prefix, n) !in a.ids)
  }

  /** An id given out between two states. */
  ghost predicate Issued(prefix: Text, a: Ledger, b: Ledger, id: Text) {
    exists n: nat :: a.sequence < n <= b.sequence && id == NumberedId(prefix, n)
  }

  /** Every id of the later state was there before or was given out in between. */
  ghost predicate Follows(prefix: Text, a: Ledger, b: Ledger) {
    && a.sequence <= b.sequence
    && (forall id :: id in b.ids ==> id in a.ids || Issued(prefix, a, b, id))
  }

  lemma NumberedInjective(prefix: Text, m: nat, n: nat)
    requires NumberedId(prefix, m) == NumberedId(prefix, n)
    ensures m == n
  {
    assert NumberedId(prefix, m)[|prefix|..] == Digits(m);
    assert NumberedId(prefix, n)[|prefix|..] == Digits(n);
    DigitsInjective(m, n);
  }

  lemma FollowsTransitive(prefix: Text, a: Ledger, b: Ledger, c: Ledger)
    requires Follows(prefix, a, b) && Follows(prefix, b, c)
    ensures Follows(prefix, a, c)
  {
    forall id | id in c.ids ensures id in a.ids || Issued(prefix, a, c, id) {
      if id !in b.ids {
        var n: nat :| b.sequence < n <= c.sequence && id == NumberedId(prefix, n);
        assert a.sequence < n <= c.sequence;
      } else if id !in a.ids {
        var n: nat :| a.sequence < n <= b.sequence && id == NumberedId(prefix, n);
        assert a.sequence < n <= c.sequence;
      }
    }
  }

  /** An id that was in use and no longer is never comes back. */
  lemma NeverReissued(prefix: Text, a: Ledger, b: Ledger, c: Ledger, id: Text)
    requires LedgerOk(prefix, a) && Follows(prefix, a, b) && Follows(prefix, b, c)
    requires id in a.ids && id !in b.ids
    ensures id !in c.ids
  {
    assert forall n: nat :: b.sequence < n ==> id != NumberedId(prefix, n);
  }

  /** Putting a newly numbered id at the front or the back. */
  lemma IssueKeeps(prefix: Text, a: Ledger, b: Ledger, n: nat)
    requires LedgerOk(prefix, a) && n > a.sequence && b.sequence == n
    requires b.ids == a.ids + [NumberedId(prefix, n)] || b.ids == [NumberedId(prefix, n)] + a.ids
    ensures LedgerOk(prefix, b) && Follows(prefix, a, b)
  {
    var id := NumberedId(prefix, n);
    forall m: nat | m > n ensures NumberedId(prefix, m) !in b.ids {
      assert NumberedId(prefix, m) !in a.ids;
      if NumberedId(prefix, m) == id { NumberedInjective(prefix, m, n); }
    }
    assert forall i :: 0 <= i < |a.ids| ==> a.ids[i] in a.ids;
    forall x | x in b.ids ensures x in a.ids || Issued(prefix, a, b, x) {
      if x == id { assert a.sequence < n <= b.sequence; }
    }
  }

  /** Dropping the tail of the list. */
  lemma TruncateKeeps(prefix: Text, a: Ledger, b: Ledger, max: nat)
    requires LedgerOk(prefix, a) && b.sequence == a.sequence && max <= |a.ids| && b.ids == a.ids[..max]
    ensures LedgerOk(prefix, b) && Follows(prefix, a, b)
  {
    assert forall x :: x in b.ids ==> x in a.ids;
  }

  // ------------------------------------------------------------ saving and deleting

  ghost predicate RecordsOk<F>(rs: seq<Record<F>>, sequence: nat, prefix: Text) {
    LedgerOk(prefix, Ledger(Ids(rs), sequence))
  }

  ghost predicate RecordsFollow<F>(rs: seq<Record<F>>, sequence: nat, rs': seq<Record<F>>, sequence': nat, prefix: Text) {
    Follows(prefix, Ledger(Ids(rs), sequence), Ledger(Ids(rs'), sequence'))
  }

  /** Saving keeps ids distinct, gives out only new numbers, and respects the capacity. */
  lemma SaveKeeps<F>(rs: seq<Record<F>>, sequence: nat, prefix: Text, capacity: nat, editing: Option<Text>, f: F, same: (F, F) -> bool)
    requires RecordsOk(rs, sequence, prefix) && |rs| <= capacity
    ensures var r := Save(rs, sequence, prefix, capacity, editing, f, same);
      && RecordsOk(r.records, r.sequence, prefix) && |r.records| <= capacity
      && RecordsFollow(rs, sequence, r.records, r.sequence, prefix)
  {
    var r := Save(rs, sequence, prefix, capacity, editing, f, same);
    if r.outcome == Added {
      assert Ids(r.records) == Ids(rs) + [NumberedId(prefix, sequence + 1)];
      IssueKeeps(prefix, Ledger(Ids(rs), sequence), Ledger(Ids(r.records), r.sequence), sequence + 1);
    } else {
      assert Ids(r.records) == Ids(rs);
    }
  }

  /**
   * What one save does: no record moves or changes its id; at most one record changes, and
   * it is the one reported; whatever is not refused for capacity is stored as given.
   */
  lemma SaveChangesOne<F>(rs: seq<Record<F>>, sequence: nat, prefix: Text, capacity: nat, editing: Option<Text>, f: F, same: (F, F) -> bool)
    requires Distinct(Ids(rs))
    ensures var r := Save(rs, sequence, prefix, capacity, editing, f, same);
      && Ids(rs) <= Ids(r.records) && |r.records| <= |rs| + 1
      && (forall i, j :: 0 <= i < j < |rs| ==> r.records[i] == rs[i] || r.records[j] == rs[j])
      && (forall i :: 0 <= i < |rs| && r.records[i] != rs[i] ==> r.outcome == Updated && r.records[i] == Record(rs[i].id, f) && r.id == Some(rs[i].id))
      && (r.outcome == Capacity <==> |rs| >= capacity && FindId(rs, editing).None? && forall i :: 0 <= i < |rs| ==> !same(rs[i].fields, f))
      && (r.outcome == Capacity ==> r.records == rs && r.sequence == sequence)
      && (r.outcome != Capacity ==> r.id.Some? && Record(r.id.value, f) in r.records)
  {
    var r := Save(rs, sequence, prefix, capacity, editing, f, same);
    if r.outcome == Updated {
      var k := FindExisting(rs, editing, f, same).value;
      assert r.records[k] == Record(rs[k].id, f);
      forall i | 0 <= i < |rs| && i != k ensures r.records[i] == rs[i] {
        assert Ids(rs)[i] != Ids(rs)[k];
      }
    } else if r.outcome == Added {
      assert r.records[|rs|] == Record(r.id.value, f);
      assert Ids(rs) <= Ids(r.records);
    }
  }

  lemma WriteTwice<F>(rs: seq<Record<F>>, id: Text, f: F)
    ensures Write(Write(rs, id, f), id, f) == Write(rs, id, f)
  {
  }

  /** What the second save finds, when the first one updated record `k`. */
  lemma FindAgain<F>(rs: seq<Record<F>>, editing: Option<Text>, f: F, same: (F, F) -> bool)
    requires FindExisting(rs, editing, f, same).Some? && same(f, f)
    ensures var id := rs[FindExisting(rs, editing, f, same).value].id;
      var again := FindExisting(Write(rs, id, f), editing, f, same);
      again.Some? && Write(rs, id, f)[again.value].id == id
  {
    var k := FindExisting(rs, editing, f, same).value;
    var id := rs[k].id;
    var ws := Write(rs, id, f);
    assert ws[k] == Record(id, f);
    if FindId(rs, editing).Some? {
      assert editing == Some(ws[k].id);
    } else {
      assert FindId(ws, editing).None? by {
        assert forall i :: 0 <= i < |ws| ==> ws[i].id == rs[i].id;
      }
      var again := FindSame(ws, f, same);
      assert again.Some? && again.value <= k;
      assert ws[again.value] == rs[again.value] ==> again.value == k;
    }
  }

  /** Saving the same thing twice leaves what saving it once left. */
  lemma SaveTwice<F>(rs: seq<Record<F>>, sequence: nat, prefix: Text, capacity: nat, editing: Option<Text>, f: F, same: (F, F) -> bool)
    requires RecordsOk(rs, sequence, prefix) && same(f, f)
    ensures var once := Save(rs, sequence, prefix, capacity, editing, f, same);
      var twice := Save(once.records, once.sequence, prefix, capacity, editing, f, same);
      twice.records == once.records && twice.sequence == once.sequence && twice.id == once.id
  {
    var once := Save(rs, sequence, prefix, capacity, editing, f, same);
    if once.outcome == Updated {
      FindAgain(rs, editing, f, same);
      WriteTwice(rs, once.id.value, f);
    } else if once.outcome == Added {
      AddedFoundAgain(rs, sequence, prefix, editing, f, same);
    }
  }

  lemma AddedFoundAgain<F>(rs: seq<Record<F>>, sequence: nat, prefix: Text, editing: Option<Text>, f: F, same: (F, F) -> bool)
    requires RecordsOk(rs, sequence, prefix) && same(f, f) && FindExisting(rs, editing, f, same).None?
    ensures var id := NumberedId(prefix, sequence + 1);
      var ws := rs + [Record(id, f)];
      && FindExisting(ws, editing, f, same) == Some(|rs|) && Write(ws, id, f) == ws
  {
    var id := NumberedId(prefix, sequence + 1);
    var ws := rs + [Record(id, f)];
    assert id !in Ids(rs);
    forall i | 0 <= i < |rs| ensures ws[i] == rs[i] && rs[i].id != id && editing != Some(ws[i].id) && !same(ws[i].fields, f) {
      assert Ids(rs)[i] != id;
    }
    assert ws[|rs|] == Record(id, f);
    var byId, bySame := FindId(ws, editing), FindSame(ws, f, same);
    assert bySame == Some(|rs|);
    assert byId.Some? ==> byId.value == |rs|;
  }

  /** Deleting takes away that id and nothing else. */
  lemma {:induction false} WithoutMember<F>(rs: seq<Record<F>>, id: Text, r: Record<F>)
    ensures r in Without(rs, id) <==> r in rs && r.id != id
  {
    if rs != [] {
      WithoutMember(rs[1..], id, r);
      assert r in rs <==> r == rs[0] || r in rs[1..];
    }
  }

  lemma WithoutIds<F>(rs: seq<Record<F>>, id: Text, x: Text)
    ensures x in Ids(Without(rs, id)) <==> x in Ids(rs) && x != id
  {
    var ws := Without(rs, id);
    if x in Ids(ws) {
      var i :| 0 <= i < |ws| && Ids(ws)[i] == x;
      WithoutMember(rs, id, ws[i]);
      var k :| 0 <= k < |rs| && rs[k] == ws[i];
      assert Ids(rs)[k] == x;
    }
    if x in Ids(rs) && x != id {
      var i :| 0 <= i < |rs| && Ids(rs)[i] == x;
      WithoutMember(rs, id, rs[i]);
      var k :| 0 <= k < |ws| && ws[k] == rs[i];
      assert Ids(ws)[k] == x;
    }
  }

  lemma DistinctCons(x: Text, rest: seq<Text>)
    ensures Distinct([x] + rest) <==> Distinct(rest) && x !in rest
  {
    var all := [x] + rest;
    assert forall i :: 0 <= i < |rest| ==> all[i + 1] == rest[i];
    if Distinct(all) {
      forall i, j | 0 <= i < j < |rest| ensures rest[i] != rest[j] {
        assert all[i + 1] != all[j + 1];
      }
      assert forall i :: 0 <= i < |rest| ==> all[0] != rest[i];
    }
    if Distinct(rest) && x !in rest {
      forall i, j | 0 <= i < j < |all| ensures all[i] != all[j] {
        assert all[j] == rest[j - 1] && (i > 0 ==> all[i] == rest[i - 1]);
      }
    }
  }

  lemma {:induction false} WithoutDistinct<F>(rs: seq<Record<F>>, id: Text)
    requires Distinct(Ids(rs))
    ensures Distinct(Ids(Without(rs, id)))
  {
    if rs != [] {
      var tail := rs[1..];
      assert Ids(rs) == [rs[0].id] + Ids(tail);
      DistinctCons(rs[0].id, Ids(tail));
      WithoutDistinct(tail, id);
      if rs[0].id != id {
        assert Ids(Without(rs, id)) == [rs[0].id] + Ids(Without(tail, id));
        WithoutIds(tail, id, rs[0].id);
        DistinctCons(rs[0].id, Ids(Without(tail, id)));
      }
    }
  }

  /** Deleting takes the record away, keeps the others, and frees no number. */
  lemma DeleteKeeps<F>(rs: seq<Record<F>>, sequence: nat, prefix: Text, id: Text)
    requires RecordsOk(rs, sequence, prefix)
    ensures RecordsOk(Without(rs, id), sequence, prefix)
    ensures RecordsFollow(rs, sequence, Without(rs, id), sequence, prefix)
  {
    WithoutDistinct(rs, id);
    forall x ensures x in Ids(Without(rs, id)) ==> x in Ids(rs) {
      WithoutIds(rs, id, x);
    }
  }

  /** The record that a save overwrites: the one being edited if it is listed, or else the first one alike. */
  ghost predicate Target<F>(rs: seq<Record<F>>, editing: Option<Text>, f: F, like: (F, F) -> bool, i: nat) {
    && i < |rs|
    && if editing.Some? && editing.value in Ids(rs) then rs[i].id == editing.value
       else like(rs[i].fields, f) && forall j :: 0 <= j < i ==> !like(rs[j].fields, f)
  }

  /** A save overwrites its target if there is one, is refused if there is none and the collection is full, and else adds. */
  lemma SaveTargets<F>(rs: seq<Record<F>>, sequence: nat, prefix: Text, capacity: nat, editing: Option<Text>, f: F, same: (F, F) -> bool, i: nat)
    requires Distinct(Ids(rs))
    ensures var r := Save(rs, sequence, prefix, capacity, editing, f, same);
      && (Target(rs, editing, f, same, i) ==> r.outcome == Updated && r.id == Some(rs[i].id))
      && (r.outcome != Updated ==> (r.outcome == Capacity <==> |rs| >= capacity) && (r.outcome == Added <==> |rs| < capacity))
      && (r.outcome == Updated ==> exists k: nat :: Target(rs, editing, f, same, k))
  {
    var found := FindId(rs, editing);
    if editing.Some? && editing.value in Ids(rs) {
      var k :| 0 <= k < |rs| && Ids(rs)[k] == editing.value;
      assert rs[k].id == editing.value && found.Some?;
      assert Target(rs, editing, f, same, found.value);
      if Target(rs, editing, f, same, i) { assert Ids(rs)[i] == Ids(rs)[found.value]; }
    } else {
      var first := FindSame(rs, f, same);
      if first.Some? { assert Target(rs, editing, f, same, first.value); }
    }
  }
}
