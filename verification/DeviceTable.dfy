/**
 The table of redirected printers: an array of at most 16 devices without gaps, in the order
 of their announcement, found by device id.
 */
module DeviceTable {
  import opened Octets
  import opened Wrappers
  import Q = QueueNames

  const MAX_PRINTERS: nat := 16

  /** A printer; names that could not be copied are absent. */
  datatype Dev = Dev(id: u32, flags: u32, dosName: string, printerName: Option<string>, driverName: Option<string>,
                     cupsName: Option<string>, queueCreated: bool)

  /** Which of the allocations for a new printer succeed. */
  datatype Memory = Memory(dev: bool, printer: bool, driver: bool, cups: bool)

  // The abstract table: a sequence without repeated ids, that is, an insertion-ordered map

  ghost predicate Unique(t: seq<Dev>)
  {
    forall i, k :: 0 <= i < k < |t| ==> t[i].id != t[k].id
  }

  ghost predicate TableOk(t: seq<Dev>)
  {
    Unique(t) && |t| <= MAX_PRINTERS
  }

  /** The position of a device, or -1. */
  function IndexOf(t: seq<Dev>, id: u32): (r: int)
    ensures -1 <= r < |t|
    ensures r >= 0 ==> t[r].id == id && forall k :: 0 <= k < r ==> t[k].id != id
    ensures r < 0 ==> forall k :: 0 <= k < |t| ==> t[k].id != id
  {
    if t == [] then -1
    else if t[0].id == id then 0
    else var r := IndexOf(t[1..], id); if r < 0 then -1 else r + 1
  }

  function Added(t: seq<Dev>, dev: Dev): seq<Dev>
  {
    if |t| >= MAX_PRINTERS || IndexOf(t, dev.id) >= 0 then t else t + [dev]
  }

  /** All devices but the one with this id, in order. */
  function Removed(t: seq<Dev>, id: u32): seq<Dev>
  {
    if t == [] then []
    else (if t[0].id == id then [] else [t[0]]) + Removed(t[1..], id)
  }

  /** A printer without a queue name has no queue to be created. */
  function Mark(d: Dev): Dev
  {
    if d.cupsName.Some? then d.(queueCreated := true) else d
  }

  function Marked(t: seq<Dev>): (r: seq<Dev>)
    ensures |r| == |t| && forall i :: 0 <= i < |t| ==> r[i] == Mark(t[i])
  {
    if t == [] then [] else [Mark(t[0])] + Marked(t[1..])
  }

  /** The table as a map from ids. */
  function Lookup(t: seq<Dev>, id: u32): Option<Dev>
  {
    var i := IndexOf(t, id);
    if i < 0 then None else Some(t[i])
  }

  lemma {:induction false} RemovedAbsent(t: seq<Dev>, id: u32)
    requires IndexOf(t, id) < 0
    ensures Removed(t, id) == t
  {
    if t != [] { RemovedAbsent(t[1..], id); }
  }

  /** With unique ids, removing is cutting out one place. */
  lemma {:induction false} RemovedAt(t: seq<Dev>, k: nat)
    requires Unique(t) && k < |t|
    ensures Removed(t, t[k].id) == t[..k] + t[k + 1..]
  {
    if k == 0 {
      assert forall i :: 0 <= i < |t[1..]| ==> t[1..][i].id != t[0].id;
      RemovedAbsent(t[1..], t[0].id);
    } else {
      RemovedAt(t[1..], k - 1);
      assert t[1..][..k - 1] == t[1..k] && t[1..][k..] == t[k + 1..];
      assert t[..k] == [t[0]] + t[1..k];
    }
  }

  /** A new device goes to the end and into the map, unless its id is known or the table full. */
  lemma {:induction false} AddedRefines(t: seq<Dev>, dev: Dev, x: u32)
    requires TableOk(t)
    ensures TableOk(Added(t, dev))
    ensures Lookup(Added(t, dev), x) ==
      if x == dev.id && |t| < 16 && Lookup(t, x).None? then Some(dev) else Lookup(t, x)
    ensures t <= Added(t, dev)
  {
    var r := Added(t, dev);
    if r != t {
      assert forall i :: 0 <= i < |t| ==> r[i] == t[i];
      var i, n := IndexOf(t, x), IndexOf(r, x);
      if i >= 0 { assert r[i].id == x; }
      assert r[|t|].id == dev.id;
    }
  }

  /** What is left after a removal, by position. */
  lemma {:induction false} RemovedPlaces(t: seq<Dev>, k: nat)
    requires Unique(t) && k < |t|
    ensures var r := Removed(t, t[k].id);
      && |r| == |t| - 1 && (forall i :: 0 <= i < |r| ==> r[i] == t[if i < k then i else i + 1])
      && Unique(r)
  {
    RemovedAt(t, k);
  }

  /** A removed device leaves the map, the others stay, in their order. */
  lemma {:induction false} RemovedRefines(t: seq<Dev>, id: u32, x: u32)
    requires TableOk(t)
    ensures TableOk(Removed(t, id))
    ensures Lookup(Removed(t, id), x) == if x == id then None else Lookup(t, x)
  {
    var k := IndexOf(t, id);
    if k < 0 {
      RemovedAbsent(t, id);
    } else {
      RemovedPlaces(t, k);
      var r := Removed(t, id);
      var i, n := IndexOf(t, x), IndexOf(r, x);
      if i >= 0 && x != id { assert r[if i < k then i else i - 1].id == x; }
      if n >= 0 { assert t[if n < k then n else n + 1].id == x; }
    }
  }

  /** Marking says of every device that has a queue name that its queue is created, and nothing else. */
  lemma {:induction false} MarkedRefines(t: seq<Dev>, x: u32)
    requires TableOk(t)
    ensures TableOk(Marked(t))
    ensures Lookup(Marked(t), x) == match Lookup(t, x)
      case None => None
      case Some(d) => Some(Dev(d.id, d.flags, d.dosName, d.printerName, d.driverName, d.cupsName, d.queueCreated || d.cupsName.Some?))
  {
    var i, k := IndexOf(t, x), IndexOf(Marked(t), x);
    if i >= 0 { assert Marked(t)[i].id == x; }
    if k >= 0 { assert t[k].id == x; }
  }

  function If<T>(copied: bool, t: T): Option<T>
  {
    if copied then Some(t) else None
  }

  /** The device an announcement makes. The DOS name is kept to 8 characters. */
  function DevFor(id: u32, dosName: string, flags: u32, printerName: string, driverName: string,
                  sessionId: int, sessionCupsd: bool, memory: Memory): Dev
  {
    Dev(id, flags, if |dosName| <= 8 then dosName else dosName[..8], If(memory.printer, printerName), If(memory.driver, driverName),
        If(memory.cups, Q.QueueName(if printerName != [] then printerName else dosName, if sessionCupsd then 0 else sessionId)),
        false)
  }

  lemma CutPlaces<T>(t: seq<T>, at: nat)
    requires at < |t|
    ensures var cut := t[..at] + t[at + 1..];
      |cut| == |t| - 1 && forall i :: 0 <= i < |cut| ==> cut[i] == t[if i < at then i else i + 1]
  {
  }

  /** `struct printer_dev` */
  class PrinterDev {
    const deviceId: u32
    const flags: u32
    const dosName: string
    const printerName: Option<string>
    const driverName: Option<string>
    const cupsName: Option<string>
    var queueCreated: bool

    constructor (d: Dev)
      ensures View() == d
    {
      deviceId, flags, dosName, printerName := d.id, d.flags, d.dosName, d.printerName;
      driverName, cupsName, queueCreated := d.driverName, d.cupsName, d.queueCreated;
    }

    ghost function View(): Dev
      reads this
    {
      Dev(deviceId, flags, dosName, printerName, driverName, cupsName, queueCreated)
    }
  }

  /** `struct printer_manager` */
  class PrinterManager {
    const printers: array<PrinterDev?>
    var count: nat
    const sessionId: int
    const useSessionCupsd: bool
    ghost var devs: seq<PrinterDev>
    ghost var table: seq<Dev>  // the abstract table

    /** The array is a front without nulls, holding `devs`, and nulls after it. */
    ghost predicate Valid()
      reads this, printers, devs
    {
      && printers.Length == MAX_PRINTERS && count == |devs| == |table| && TableOk(table)
      && (forall i :: 0 <= i < count ==> printers[i] == devs[i] && devs[i].View() == table[i])
      && (forall i :: count <= i < MAX_PRINTERS ==> printers[i] == null)
    }

    constructor (sessionId: int, useSessionCupsd: bool)
      ensures Valid() && fresh(printers) && devs == [] && table == []
      ensures this.sessionId == sessionId && this.useSessionCupsd == useSessionCupsd
    {
      this.sessionId, this.useSessionCupsd := sessionId, useSessionCupsd;
      printers := new PrinterDev?[MAX_PRINTERS](_ => null);
      count, devs, table := 0, [], [];
    }

    /** `printer_dev_find` */
    method Find(id: u32) returns (dev: PrinterDev?, ghost at: int)
      requires Valid()
      ensures at == IndexOf(table, id)
      ensures dev == if IndexOf(table, id) < 0 then null else devs[IndexOf(table, id)]
    {
      at := -1;
      var i := 0;
      while i < count
        invariant 0 <= i <= count
        invariant forall k :: 0 <= k < i ==> table[k].id != id
      {
        if printers[i] != null && printers[i].deviceId == id {
          assert table[i].id == id;
          return printers[i], i;
        }
        i := i + 1;
      }
      return null, -1;
    }

    method Append(dev: PrinterDev)
      requires Valid() && count < MAX_PRINTERS && IndexOf(table, dev.deviceId) < 0
      modifies this`count, this`devs, this`table, printers
      ensures Valid() && devs == old(devs) + [dev] && table == old(table) + [dev.View()]
    {
      printers[count] := dev;
      count := count + 1;
      devs := devs + [dev];
      table := table + [dev.View()];
    }

    /** `printer_dev_add` */
    method Add(id: u32, dosName: string, flags: u32, printerName: string, driverName: string, memory: Memory)
      returns (dev: PrinterDev?)
      requires Valid()
      modifies this`count, this`devs, this`table, printers
      ensures Valid()
      ensures var d := DevFor(id, dosName, flags, printerName, driverName, sessionId, useSessionCupsd, memory);
        table == if memory.dev then Added(old(table), d) else old(table)
      ensures dev != null <==> memory.dev && |old(table)| < 16 && IndexOf(old(table), id) < 0
      ensures if dev == null then devs == old(devs) else fresh(dev) && devs == old(devs) + [dev]
      ensures dev == null ==> table == old(table)
      ensures dev != null ==>
                var base := if printerName != [] then printerName else dosName;
                && table == old(table) + [dev.View()] && dev.deviceId == id && dev.flags == flags && !dev.queueCreated
                && dev.dosName == (if |dosName| <= 8 then dosName else dosName[..8])
                && dev.printerName == (if memory.printer then Some(printerName) else None)
                && dev.driverName == (if memory.driver then Some(driverName) else None)
                && dev.cupsName == (if memory.cups then Some(Q.QueueName(base, if useSessionCupsd then 0 else sessionId)) else None)
    {
      if count >= MAX_PRINTERS { return null; }
      var found, at := Find(id);
      if found != null || !memory.dev { return null; }
      var base := if printerName != [] then printerName else dosName;
      var name := Q.SanitizeName(base, if useSessionCupsd then 0 else sessionId, memory.cups);
      var cupsName := if name == null then None else Some(name[..name.Length - 1]);
      dev := new PrinterDev(Dev(id, flags, if |dosName| <= 8 then dosName else dosName[..8],
                                If(memory.printer, printerName), If(memory.driver, driverName), cupsName, false));
      Append(dev);
    }

    /** The loop that shifts the later entries over the one removed. */
    method CloseGap(at: nat)
      requires printers.Length == MAX_PRINTERS && at < count <= MAX_PRINTERS
      modifies printers
      ensures forall i :: 0 <= i < MAX_PRINTERS ==>
                printers[i] == if i < at || i >= count then old(printers[i]) else if i < count - 1 then old(printers[i + 1]) else null
    {
      var j := at;
      while j < count - 1
        invariant at <= j <= count - 1
        invariant forall i :: 0 <= i < MAX_PRINTERS ==> printers[i] == if at <= i < j then old(printers[i + 1]) else old(printers[i])
      {
        printers[j] := printers[j + 1];
        j := j + 1;
      }
      printers[count - 1] := null;
    }

    /** The entry at one place leaves the array, and the ones behind it move up. */
    method ShiftDown(at: nat)
      requires Valid() && at < count
      modifies this`count, this`devs, this`table, printers
      ensures Valid() && devs == old(devs)[..at] + old(devs)[at + 1..]
      ensures table == old(table)[..at] + old(table)[at + 1..]
    {
      CutPlaces(devs, at);
      CutPlaces(table, at);
      CloseGap(at);
      count := count - 1;
      devs := devs[..at] + devs[at + 1..];
      table := table[..at] + table[at + 1..];
    }

    /** `printer_dev_remove` */
    method Remove(id: u32)
      requires Valid()
      modifies this`count, this`devs, this`table, printers
      ensures Valid() && table == Removed(old(table), id)
      ensures forall d :: d in devs ==> d in old(devs)
    {
      var i := 0;
      while i < count
        invariant 0 <= i <= count
        invariant forall k :: 0 <= k < i ==> table[k].id != id
        invariant Valid() && table == old(table) && devs == old(devs)
      {
        if printers[i] != null && printers[i].deviceId == id {
          RemovedAt(table, i);
          ShiftDown(i);
          return;
        }
        i := i + 1;
      }
      RemovedAbsent(table, id);
    }

    /** Every queue counts as created after a helper's success. */
    method MarkAll()
      requires Valid()
      modifies this`table, devs
      ensures Valid() && table == Marked(old(table)) && devs == old(devs)
    {
      DistinctDevs();
      var i := 0;
      while i < count
        invariant 0 <= i <= count
        invariant forall k :: 0 <= k < count ==>
                    devs[k].View() == if k < i then Mark(table[k]) else table[k]
        modifies devs
      {
        if printers[i] != null && printers[i].cupsName.Some? {
          printers[i].queueCreated := true;
        }
        i := i + 1;
      }
      table := Marked(table);
    }

    lemma {:induction false} DistinctDevs()
      requires Valid()
      ensures forall i, k :: 0 <= i < k < count ==> devs[i] != devs[k]
    {
      forall i, k | 0 <= i < k < count ensures devs[i] != devs[k] {
        assert devs[i].View().id == table[i].id && devs[k].View().id == table[k].id;
      }
    }
  }
}
