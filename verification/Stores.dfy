/**
 * The key-value stores (internal/store).  One class stands for both implementations of the interface: the
 * in-memory store keeps and hands out the very objects it was given, the persistent store copies values in
 * and out and may fail to write.
 */
module Stores {
  import opened Seqs
  import opened Tasks

  /** An object reached through a pointer. */
  class Cell<V> {
    var value: V

    constructor (v: V)
      ensures value == v
    {
      value := v;
    }
  }

  class Store<V> {
    const persistent: bool
    var cells: map<Uuid, Cell<V>>

    /** No two keys share an object, so changing one record through its pointer changes no other. */
    ghost predicate Valid()
      reads this
    {
      forall j, k | j in cells && k in cells && j != k :: cells[j] != cells[k]
    }

    /** The store as a map of values. */
    ghost function Contents(): map<Uuid, V>
      reads this, cells.Values
    {
      map k | k in cells :: cells[k].value
    }

    constructor (persistent: bool)
      ensures Valid() && cells == map[] && this.persistent == persistent
    {
      this.persistent := persistent;
      cells := map[];
    }

    method Get(k: Uuid) returns (p: Cell?<V>)
      ensures p == null <==> k !in cells
      ensures p != null ==> p.value == cells[k].value
      ensures p != null ==> if persistent then fresh(p) else p == cells[k]
    {
      if k !in cells {
        return null;
      }
      if persistent {
        p := new Cell(cells[k].value);
      } else {
        p := cells[k];
      }
    }

    /** `diskOk` is the outcome of the write; the in-memory store never fails. */
    method Put(k: Uuid, p: Cell<V>, diskOk: bool) returns (ok: bool)
      requires Valid()
      requires !persistent ==> forall j | j in cells && cells[j] == p :: j == k
      modifies this
      ensures Valid() && ok == (!persistent || diskOk)
      ensures Contents() == if ok then old(Contents())[k := p.value] else old(Contents())
      ensures forall j | j in cells ::
              (j in old(cells) && cells[j] == old(cells[j])) || (j == k && (cells[j] == p || fresh(cells[j])))
      ensures !persistent ==> cells == old(cells)[k := p]
      ensures persistent ==> forall j | j in cells :: (j in old(cells) && cells[j] == old(cells[j])) || fresh(cells[j])
    {
      if persistent {
        if !diskOk {
          return false;
        }
        var c := new Cell(p.value);
        cells := cells[k := c];
      } else {
        cells := cells[k := p];
      }
      ok := true;
    }

    /** Changing one record through its pointer is, for the map of values, an update at its key. */
    twostate lemma ChangedThroughPointer(k: Uuid)
      requires old(Valid()) && k in old(cells) && cells == old(cells)
      requires forall j | j in old(cells) && j != k :: cells[j].value == old(cells[j].value)
      ensures Contents() == old(Contents())[k := cells[k].value]
    {
    }

    /** The stored records in an arbitrary order; `keys` names the key each one is stored under. */
    method List() returns (ps: seq<Cell<V>>, ghost keys: seq<Uuid>)
      ensures |ps| == |keys| && NoDup(keys)
      ensures forall k :: k in keys <==> k in cells
      ensures forall i | 0 <= i < |ps| :: ps[i].value == cells[keys[i]].value
      ensures forall i | 0 <= i < |ps| :: if persistent then fresh(ps[i]) else ps[i] == cells[keys[i]]
    {
      ps, keys := [], [];
      var todo := cells.Keys;
      while todo != {}
        invariant todo <= cells.Keys
        invariant |ps| == |keys| && NoDup(keys)
        invariant forall k :: k in keys <==> k in cells && k !in todo
        invariant forall i | 0 <= i < |ps| :: ps[i].value == cells[keys[i]].value
        invariant forall i | 0 <= i < |ps| :: if persistent then fresh(ps[i]) else ps[i] == cells[keys[i]]
        decreases |todo|
      {
        var k :| k in todo;
        var p := Get(k);
        NoDupSnoc(keys, k);
        ps, keys, todo := ps + [p], keys + [k], todo - {k};
      }
    }
  }
}
