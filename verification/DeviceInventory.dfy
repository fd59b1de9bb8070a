/**
 Thread device rows of all border routers share one table, keyed "otbr-id:extended-address".
 Storing the inventory of one border router replaces exactly its own rows.
 */
module DeviceInventory {
  import opened Containers

  /** A parsed device; its extended address is normalised to 16 hex digits. */
  datatype Device = Device(address: string, ipv6: Option<string>, role: Option<string>, hostname: Option<string>)

  datatype Row = Row(device: Device, source: string, extPanId: Option<string>, lastSeen: int)

  const ADDRESS_LENGTH := 16

  function Key(source: string, address: string): string {
    source + ":" + address
  }

  predicate Normalised(inventory: seq<Device>) {
    forall d :: d in inventory ==> |d.address| == ADDRESS_LENGTH
  }

  /** Every row is stored under the key of its own source and address. */
  predicate ValidRows(rows: map<string, Row>) {
    forall k :: k in rows ==>
      |rows[k].device.address| == ADDRESS_LENGTH && k == Key(rows[k].source, rows[k].device.address)
  }

  /** Addresses of fixed length make the keys unambiguous, even when ids contain colons. */
  lemma {:induction false} KeyIsInjective(a: string, x: string, b: string, y: string)
    requires |x| == |y| && Key(a, x) == Key(b, y)
    ensures a == b && x == y
  {
    assert Key(a, x)[..|a|] == a && Key(b, y)[..|b|] == b;
    assert Key(a, x)[|a| + 1..] == x && Key(b, y)[|b| + 1..] == y;
  }

  /** The table after storing the first devices of the inventory. */
  function Stored(rows: map<string, Row>, source: string, inventory: seq<Device>, ext: Option<string>,
      now: int): map<string, Row> {
    if inventory == [] then rows else
    var d := inventory[|inventory| - 1];
    Stored(rows, source, inventory[..|inventory| - 1], ext, now)[Key(source, d.address) := Row(d, source, ext, now)]
  }

  function Seen(source: string, inventory: seq<Device>): set<string> {
    set d | d in inventory :: Key(source, d.address)
  }

  function Pruned(rows: map<string, Row>, source: string, seen: set<string>): map<string, Row> {
    map k | k in rows && (rows[k].source != source || k in seen) :: rows[k]
  }

  class Table {
    var rows: map<string, Row>

    constructor (rows: map<string, Row>)
      ensures this.rows == rows
    {
      this.rows := rows;
    }

    method PersistInventory(source: string, inventory: seq<Device>, ext: Option<string>, now: int)
      modifies this
      ensures rows == Pruned(Stored(old(rows), source, inventory, ext, now), source, Seen(source, inventory))
    {
      var seen: set<string> := {};
      for i := 0 to |inventory|
        invariant rows == Stored(old(rows), source, inventory[..i], ext, now)
        invariant seen == Seen(source, inventory[..i])
      {
        var device := inventory[i];
        var id := Key(source, device.address);
        assert inventory[..i + 1] == inventory[..i] + [device];
        seen := seen + {id};
        rows := rows[id := Row(device, source, ext, now)];
      }
      assert inventory[..|inventory|] == inventory;
      DeleteUnseen(source, seen);
    }

    /** The clean-up loop over the stored rows, in any order. */
    method DeleteUnseen(source: string, seen: set<string>)
      modifies this
      ensures rows == Pruned(old(rows), source, seen)
    {
      ghost var before := rows;
      var todo := rows.Keys;
      while todo != {}
        invariant todo <= rows.Keys <= before.Keys
        invariant forall k :: k in rows ==> rows[k] == before[k]
        invariant forall k :: k in before && k !in todo ==> (k in rows <==> before[k].source != source || k in seen)
        decreases |todo|
      {
        var id :| id in todo;
        if rows[id].source == source && id !in seen {
          rows := map k | k in rows && k != id :: rows[k];
        }
        todo := todo - {id};
      }
    }
  }

  /** The last device of the inventory with an address. */
  function LastWith(inventory: seq<Device>, address: string): Option<Device> {
    if inventory == [] then None
    else if inventory[|inventory| - 1].address == address then Some(inventory[|inventory| - 1])
    else LastWith(inventory[..|inventory| - 1], address)
  }

  lemma {:induction false} LastWithFinds(inventory: seq<Device>, address: string)
    ensures LastWith(inventory, address).Some? <==> exists d :: d in inventory && d.address == address
    ensures LastWith(inventory, address).Some? ==> LastWith(inventory, address).value.address == address
  {
    if inventory != [] {
      LastWithFinds(inventory[..|inventory| - 1], address);
      assert inventory == inventory[..|inventory| - 1] + [inventory[|inventory| - 1]];
    }
  }

  /** What storing does to one key: the latest device for it, or nothing. */
  lemma {:induction false} StoredRow(rows: map<string, Row>, source: string, inventory: seq<Device>,
      ext: Option<string>, now: int,
                                     owner: string, address: string)
    requires Normalised(inventory) && |address| == ADDRESS_LENGTH
    ensures var k, last := Key(owner, address), LastWith(inventory, address);
            Get(Stored(rows, source, inventory, ext, now), k) ==
              if owner == source && last.Some? then Some(Row(last.value, source, ext, now)) else Get(rows, k)
  {
    if inventory != [] {
      var n := |inventory| - 1;
      assert forall d :: d in inventory[..n] ==> d in inventory;
      StoredRow(rows, source, inventory[..n], ext, now, owner, address);
      if Key(source, inventory[n].address) == Key(owner, address) {
        KeyIsInjective(source, inventory[n].address, owner, address);
      }
    }
  }

  lemma {:induction false} StoredKeepsValid(rows: map<string, Row>, source: string, inventory: seq<Device>,
      ext: Option<string>, now: int)
    requires ValidRows(rows) && Normalised(inventory)
    ensures ValidRows(Stored(rows, source, inventory, ext, now))
  {
    if inventory != [] {
      var n := |inventory| - 1;
      assert forall d :: d in inventory[..n] ==> d in inventory;
      StoredKeepsValid(rows, source, inventory[..n], ext, now);
      assert inventory[n] in inventory;
    }
  }

  /**
   After an inventory is stored, the rows of that border router are exactly the inventory's
   addresses, each with its last device; the rows of every other border router are unchanged.
   */
  lemma {:induction false} InventoryIsExact(rows: map<string, Row>, source: string, inventory: seq<Device>,
      ext: Option<string>, now: int,
                         owner: string, address: string)
    requires ValidRows(rows) && Normalised(inventory) && |address| == ADDRESS_LENGTH
    ensures var after := Pruned(Stored(rows, source, inventory, ext, now), source, Seen(source, inventory));
            && ValidRows(after)
            && Get(after, Key(owner, address)) ==
                 if owner != source then Get(rows, Key(owner, address))
                 else if LastWith(inventory, address).Some?
                     then Some(Row(LastWith(inventory, address).value, source, ext, now))
                 else None
  {
    var stored, k := Stored(rows, source, inventory, ext, now), Key(owner, address);
    StoredKeepsValid(rows, source, inventory, ext, now);
    StoredRow(rows, source, inventory, ext, now, owner, address);
    LastWithFinds(inventory, address);
    if k in stored {
      KeyIsInjective(stored[k].source, stored[k].device.address, owner, address);
    }
    if k in Seen(source, inventory) {
      var d :| d in inventory && Key(source, d.address) == k;
      KeyIsInjective(source, d.address, owner, address);
    }
  }

  /** With addresses of free length two border routers could own the same key. */
  lemma {:induction false} FreeLengthKeysCollide()
    ensures Key("a", "b:c") == Key("a:b", "c")
  {
    assert Key("a", "b:c") == "a:b:c" && Key("a:b", "c") == "a:b:c";
  }
}
