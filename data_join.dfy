/**
 * The keyed data join of `updateDrawing`: `selectAll("g.house").data(data, d => d.id)`
 * split into exit (removed), enter (drawn fresh) and update (redrawn).
 */
module DataJoin {
  import opened HouseData

  /** What happens at one index of the new data: a fresh group, or the existing group with that id. */
  datatype Slot = Enter(datum: House) | Update(datum: House)

  /** One slot per index of the new data, and the ids of the groups to remove. */
  datatype Join = Join(slots: seq<Slot>, exit: set<int>)

  /** No earlier row of `data` carries the id of row `i`. */
  predicate FirstOccurrence(data: seq<House>, i: nat)
    requires i < |data|
  {
    forall k | 0 <= k < i :: data[k].id != data[i].id
  }

  lemma IdsCons(data: seq<House>)
    requires data != []
    ensures Ids(data) == {data[0].id} + Ids(data[1..])
  {
    assert forall h | h in data :: h == data[0] || h in data[1..];
  }

  lemma FirstOccurrenceTail(data: seq<House>)
    requires data != []
    ensures forall i | 1 <= i < |data| ::
      FirstOccurrence(data, i) <==> data[0].id != data[i].id && FirstOccurrence(data[1..], i - 1)
  {
    forall i | 1 <= i < |data|
      ensures FirstOccurrence(data, i) <==> data[0].id != data[i].id && FirstOccurrence(data[1..], i - 1)
    {
      if FirstOccurrence(data, i) {
        forall k | 0 <= k < i - 1 ensures data[1..][k].id != data[1..][i - 1].id {
          assert data[k + 1].id != data[i].id;
        }
      }
      if data[0].id != data[i].id && FirstOccurrence(data[1..], i - 1) {
        forall k | 0 < k < i ensures data[k].id != data[i].id {
          assert data[1..][k - 1].id != data[1..][i - 1].id;
        }
      }
    }
  }

  /**
   * Join the new `data` against the ids of the groups already drawn: walking
   * the data in order, a row whose id still has an unclaimed group updates that
   * group and claims it; any other row enters; unclaimed groups exit.
   */
  function Reconcile(existing: set<int>, data: seq<House>): (j: Join)
    ensures |j.slots| == |data|
    ensures forall i | 0 <= i < |data| :: j.slots[i].datum == data[i]
    ensures forall i | 0 <= i < |data| ::
      j.slots[i].Update? <==> data[i].id in existing && FirstOccurrence(data, i)
    ensures j.exit == existing - Ids(data)
  {
    if data == [] then Join([], existing)
    else
      var d := data[0];
      var claimed := if d.id in existing then existing - {d.id} else existing;
      var rest := Reconcile(claimed, data[1..]);
      var slot := if d.id in existing then Update(d) else Enter(d);
      IdsCons(data);
      FirstOccurrenceTail(data);
      Join([slot] + rest.slots, rest.exit)
  }

  /** The ids of the groups drawn fresh. */
  function EnterIds(j: Join): set<int> {
    set i | 0 <= i < |j.slots| && j.slots[i].Enter? :: j.slots[i].datum.id
  }

  /** The ids of the existing groups redrawn (through the timed transition). */
  function UpdateIds(j: Join): set<int> {
    set i | 0 <= i < |j.slots| && j.slots[i].Update? :: j.slots[i].datum.id
  }

  /**
   * With unique ids the join is the set partition: removed = old \ new,
   * created = new \ old, retained = old ∩ new; created and retained are
   * disjoint and together are exactly the new ids.
   */
  lemma ReconcilePartition(existing: set<int>, data: seq<House>)
    requires UniqueIds(data)
    ensures var j := Reconcile(existing, data);
      && j.exit == existing - Ids(data)
      && EnterIds(j) == Ids(data) - existing
      && UpdateIds(j) == existing * Ids(data)
      && EnterIds(j) !! UpdateIds(j)
      && EnterIds(j) + UpdateIds(j) == Ids(data)
  {
    var j := Reconcile(existing, data);
    assert forall i | 0 <= i < |data| :: FirstOccurrence(data, i);
    forall id | id in Ids(data) ensures id in EnterIds(j) + UpdateIds(j) {
      var h :| h in data && h.id == id;
      var i :| 0 <= i < |data| && data[i] == h;
      assert j.slots[i].datum.id == id;
    }
  }

  /**
   * Redrawing a permutation of what is on screen (what `sortData` does)
   * creates and removes nothing: every group is retained.
   */
  lemma PermutationRetainsAll(before: seq<House>, after: seq<House>)
    requires multiset(after) == multiset(before) && UniqueIds(after)
    ensures var j := Reconcile(Ids(before), after);
      && j.exit == {} && EnterIds(j) == {} && UpdateIds(j) == Ids(before)
  {
    SameIds(after, before);
    ReconcilePartition(Ids(before), after);
  }

  /** Old ids {1, 2, 3}, new rows with ids 4, 2, 3: 1 is removed, 4 created at index 0, 2 and 3 retained at 1 and 2. */
  lemma ReconcileExample(h2: House, h3: House, h4: House)
    requires h2.id == 2 && h3.id == 3 && h4.id == 4
    ensures Reconcile({1, 2, 3}, [h4, h2, h3]) == Join([Enter(h4), Update(h2), Update(h3)], {1})
  {
    var data := [h4, h2, h3];
    assert data[1..] == [h2, h3] && data[1..][1..] == [h3] && data[1..][1..][1..] == [];
    assert Reconcile({1}, []) == Join([], {1});
    assert Reconcile({1, 3}, [h3]) == Join([Update(h3)], {1});
    assert Reconcile({1, 2, 3}, [h2, h3]) == Join([Update(h2), Update(h3)], {1});
  }
}
