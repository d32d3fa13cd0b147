/**
 * `djutils/dashboard/registry.py`: the registry of dashboard panel providers,
 * which collects each panel's data in priority order and stores it.
 */
module DashboardRegistry {
  import opened Wrappers
  import opened Errors
  import opened Pickle
  import opened Sorting

  /** `PANEL_PROVIDER_GRAPH`, the default panel type. */
  const PanelProviderGraph: int := 0
  /** What `get_priority` answers unless a provider overrides it. */
  const DefaultPriority: int := 20

  /**
   * A panel provider class. Its instance answers `get_title`, `get_panel_type`,
   * `get_priority` and `get_data` as recorded here; an absent type or priority
   * is the base class's default. `ownPanelData` is what a `get_panel_data`
   * defined by the class itself answers, absent when it defines none, as
   * neither `PanelProvider` nor any provider of the repository does.
   */
  datatype PanelClass = PanelClass(
    moduleName: string, name: string,
    title: string, panelType: Option<int>, priority: Option<int>, data: Value,
    ownPanelData: Option<Value>)

  function Priority(k: PanelClass): int { k.priority.GetOr(DefaultPriority) }

  function PanelType(k: PanelClass): int { k.panelType.GetOr(PanelProviderGraph) }

  /** `str(panel_class)` in Python 2. */
  function PanelClassString(k: PanelClass): string
  {
    "<class '" + k.moduleName + "." + k.name + "'>"
  }

  /** One dict of `_get_data_for_panels`; `created` is the clock reading. */
  datatype Record = Record(panelTitle: string, panelType: int, panelData: Value, created: int)

  /** One PanelData row: the panel data as stored, pickled. */
  datatype StoredRow = StoredRow(panelTitle: string, panelType: int, panelData: string, created: int)

  function RecordFor(k: PanelClass, created: int): (r: Record)
    ensures r.panelTitle == k.title && r.panelType == PanelType(k) && r.panelData == k.data && r.created == created
  {
    Record(k.title, PanelType(k), k.data, created)
  }

  function StoredRowFor(r: Record): (s: StoredRow)
    ensures Loads(s.panelData) == Some(r.panelData)
    ensures s.panelTitle == r.panelTitle && s.panelType == r.panelType && s.created == r.created
  {
    LoadsDumps(r.panelData);
    StoredRow(r.panelTitle, r.panelType, Dumps(r.panelData), r.created)
  }

  /** Python 2's message for a method missing on an instance of class `name`. */
  function NoPanelDataMessage(name: string): string
  {
    "'" + name + "' object has no attribute 'get_panel_data'"
  }

  /** `panel.get_panel_data()`: a provider without that method raises AttributeError. */
  function PanelDataAsWritten(k: PanelClass): (r: Result<Value, Raised>)
    ensures r.Ok? <==> k.ownPanelData.Some?
    ensures r.Ok? ==> r.value == k.ownPanelData.value
    ensures r.Err? ==> r.error == AttributeError(NoPanelDataMessage(k.name))
  {
    match k.ownPanelData
    case Some(v) => Ok(v)
    case None => Err(AttributeError(NoPanelDataMessage(k.name)))
  }

  /**
   * `_get_data_for_panels` over `panels` as written, numbering the clock
   * readings from `from`: the records, or the first AttributeError.
   */
  function RecordsAsWritten(panels: seq<PanelClass>, clock: nat -> int, from: nat): Result<seq<Record>, Raised>
    decreases |panels|
  {
    if panels == [] then Ok([])
    else match PanelDataAsWritten(panels[0])
      case Err(e) => Err(e)
      case Ok(v) => Prefixed([Record(panels[0].title, PanelType(panels[0]), v, clock(from))], RecordsAsWritten(panels[1..], clock, from + 1))
  }

  /** `done` followed by the records of `r`, or the error of `r`. */
  function Prefixed(done: seq<Record>, r: Result<seq<Record>, Raised>): Result<seq<Record>, Raised>
  {
    match r
    case Ok(rest) => Ok(done + rest)
    case Err(e) => Err(e)
  }

  /** As written, the panels' data is collected iff every panel defines `get_panel_data`. */
  lemma {:induction false} AsWrittenFailsIffMissing(panels: seq<PanelClass>, clock: nat -> int, from: nat)
    ensures RecordsAsWritten(panels, clock, from).Ok? <==> forall i :: 0 <= i < |panels| ==> panels[i].ownPanelData.Some?
    ensures RecordsAsWritten(panels, clock, from).Err? ==> RecordsAsWritten(panels, clock, from).error.AttributeError?
    decreases |panels|
  {
    if panels != [] {
      AsWrittenFailsIffMissing(panels[1..], clock, from + 1);
      assert forall i :: 1 <= i < |panels| ==> panels[i] == panels[1..][i - 1];
    }
  }

  /**
   * Where every panel's `get_panel_data` answers what its `get_data` does, the
   * code as written collects the same records as the corrected loop.
   */
  lemma {:induction false} AsWrittenAgreesWithGetData(panels: seq<PanelClass>, clock: nat -> int, from: nat)
    requires forall i :: 0 <= i < |panels| ==> panels[i].ownPanelData == Some(panels[i].data)
    ensures RecordsAsWritten(panels, clock, from).Ok?
    ensures |RecordsAsWritten(panels, clock, from).value| == |panels|
    ensures forall i :: 0 <= i < |panels| ==> RecordsAsWritten(panels, clock, from).value[i] == RecordFor(panels[i], clock(from + i))
    decreases |panels|
  {
    if panels != [] {
      assert forall i :: 1 <= i < |panels| ==> panels[i] == panels[1..][i - 1];
      AsWrittenAgreesWithGetData(panels[1..], clock, from + 1);
      var rest := RecordsAsWritten(panels[1..], clock, from + 1).value;
      var all := RecordsAsWritten(panels, clock, from).value;
      assert all == [RecordFor(panels[0], clock(from))] + rest;
      forall i | 0 <= i < |panels|
        ensures all[i] == RecordFor(panels[i], clock(from + i))
      {
        if i > 0 {
          assert all[i] == rest[i - 1];
        }
      }
    }
  }

  /** `TestPanelA` of the dashboard tests: titled `a`, it defines `get_data` only. */
  const TestPanelA := PanelClass("djutils.dashboard.tests", "TestPanelA", "a", None, None, VNone, None)

  /** With the test panel registered, `update_panels` as written raises AttributeError. */
  lemma TestPanelFails(clock: nat -> int)
    ensures RecordsAsWritten([TestPanelA], clock, 0) == Err(AttributeError(NoPanelDataMessage("TestPanelA")))
  {
  }

  /** Panels of equal priority keep their registration order. */
  lemma EqualPriorityKeepsOrder(ps: seq<PanelClass>, p: int)
    ensures WithKey(Priority, p, SortByPriority(ps)) == WithKey(Priority, p, ps)
  {
    SortByStable(Priority, ps, p);
  }

  lemma PrefixedNone(r: Result<seq<Record>, Raised>)
    ensures Prefixed([], r) == r
  {
    if r.Ok? {
      assert [] + r.value == r.value;
    }
  }

  lemma PrefixedAssoc(done: seq<Record>, rec: Record, r: Result<seq<Record>, Raised>)
    ensures Prefixed(done, Prefixed([rec], r)) == Prefixed(done + [rec], r)
  {
    if r.Ok? {
      assert done + ([rec] + r.value) == (done + [rec]) + r.value;
    }
  }

  predicate Distinct(ps: seq<PanelClass>)
  {
    forall i, j :: 0 <= i < j < |ps| ==> ps[i] != ps[j]
  }

  /** `ps` without `k`. */
  function Remove(ps: seq<PanelClass>, k: PanelClass): (r: seq<PanelClass>)
    ensures forall x :: x in r <==> x in ps && x != k
    ensures Distinct(ps) ==> Distinct(r)
    ensures Distinct(ps) && k in ps ==> |r| == |ps| - 1
    ensures k !in ps ==> r == ps
  {
    if ps == [] then []
    else if ps[0] == k then Remove(ps[1..], k)
    else
      var rest := Remove(ps[1..], k);
      assert Distinct(ps) ==> Distinct(ps[1..]) && ps[0] !in ps[1..];
      [ps[0]] + rest
  }

  /** `sorted(panels, key=lambda obj: obj.get_priority())`. */
  function SortByPriority(ps: seq<PanelClass>): (r: seq<PanelClass>)
    ensures SortedBy(Priority, r) && multiset(r) == multiset(ps) && |r| == |ps|
  {
    SortBy(Priority, ps)
  }

  /** The loop of `_get_data_for_panels` as written, over panels already in priority order. */
  method CollectAsWritten(panels: seq<PanelClass>, clock: nat -> int) returns (r: Result<seq<Record>, Raised>)
    ensures r == RecordsAsWritten(panels, clock, 0)
  {
    var data: seq<Record> := [];
    var i := 0;
    assert panels[0..] == panels;
    PrefixedNone(RecordsAsWritten(panels, clock, 0));
    while i < |panels|
      invariant 0 <= i <= |panels|
      invariant RecordsAsWritten(panels, clock, 0) == Prefixed(data, RecordsAsWritten(panels[i..], clock, i))
      decreases |panels| - i
    {
      RecordsStep(panels, clock, i);
      var v := PanelDataAsWritten(panels[i]);
      if v.Err? {
        return Err(v.error);
      }
      var rec := Record(panels[i].title, PanelType(panels[i]), v.value, clock(i));
      PrefixedAssoc(data, rec, RecordsAsWritten(panels[i + 1..], clock, i + 1));
      data := data + [rec];
      i := i + 1;
    }
    assert panels[i..] == [] && data + [] == data;
    r := Ok(data);
  }

  /** One panel of the loop: its data, then the rest. */
  lemma RecordsStep(panels: seq<PanelClass>, clock: nat -> int, i: nat)
    requires i < |panels|
    ensures RecordsAsWritten(panels[i..], clock, i) ==
      match PanelDataAsWritten(panels[i])
      case Err(e) => Err(e)
      case Ok(v) => Prefixed([Record(panels[i].title, PanelType(panels[i]), v, clock(i))], RecordsAsWritten(panels[i + 1..], clock, i + 1))
  {
    assert panels[i..][0] == panels[i] && panels[i..][1..] == panels[i + 1..];
  }

  /** `panel_class in registry` holds exactly when `_get_data_for_panels` visits that class. */
  lemma ContainsIffCollected(reg: PanelRegistry, k: PanelClass)
    ensures reg.Contains(k) <==> k in SortByPriority(reg.entries)
  {
    SortByMembers(Priority, reg.entries, k);
  }

  /** The PanelData table. */
  class PanelDataTable {
    var rows: seq<StoredRow>

    constructor ()
      ensures rows == []
    {
      rows := [];
    }
  }

  class PanelRegistry {
    /** `_registry`: the registered classes; each one's instance is its record. */
    var entries: seq<PanelClass>

    ghost predicate Valid()
      reads this
    {
      Distinct(entries)
    }

    /** `registry = PanelRegistry()`. */
    constructor ()
      ensures Valid() && entries == []
    {
      entries := [];
    }

    /** `panel_class in registry`. */
    predicate Contains(k: PanelClass)
      reads this
    {
      k in entries
    }

    /** `register(panel_class)`: an already-registered class raises and changes nothing. */
    method Register(k: PanelClass) returns (r: Outcome<Raised>)
      requires Valid()
      modifies this
      ensures Valid() && Contains(k)
      ensures old(Contains(k)) ==>
        r == Fail(PanelRegistryException("\"" + PanelClassString(k) + "\" is already registered")) && entries == old(entries)
      ensures !old(Contains(k)) ==> r == Pass && entries == old(entries) + [k]
    {
      if k in entries {
        return Fail(PanelRegistryException("\"" + PanelClassString(k) + "\" is already registered"));
      }
      entries := entries + [k];
      r := Pass;
    }

    /** `unregister(panel_class)`: an unregistered class raises; otherwise only that class goes. */
    method Unregister(k: PanelClass) returns (r: Outcome<Raised>)
      requires Valid()
      modifies this
      ensures Valid() && !Contains(k)
      ensures !old(Contains(k)) ==>
        r == Fail(PanelRegistryException("\"" + PanelClassString(k) + "\" is not registered")) && entries == old(entries)
      ensures old(Contains(k)) ==> r == Pass && entries == Remove(old(entries), k)
    {
      if k !in entries {
        return Fail(PanelRegistryException("\"" + PanelClassString(k) + "\" is not registered"));
      }
      entries := Remove(entries, k);
      r := Pass;
    }

    /**
     * `_get_data_for_panels()` as evidently intended, asking each panel for
     * the `get_data()` that `PanelProvider` declares: one record per registered
     * panel, taken in ascending priority order; record `i` is stamped with `clock(i)`.
     */
    method GetDataForPanels(clock: nat -> int) returns (data: seq<Record>)
      ensures |data| == |entries|
      ensures forall i :: 0 <= i < |data| ==> data[i] == RecordFor(SortByPriority(entries)[i], clock(i))
    {
      var panels := SortByPriority(entries);
      data := [];
      var i := 0;
      while i < |panels|
        invariant 0 <= i <= |panels| && |data| == i
        invariant forall j :: 0 <= j < i ==> data[j] == RecordFor(panels[j], clock(j))
      {
        data := data + [RecordFor(panels[i], clock(i))];
        i := i + 1;
      }
    }

    /**
     * `_get_data_for_panels()` as written: it asks each panel, in priority
     * order, for `get_panel_data()`, and raises at the first that lacks it.
     */
    method GetDataForPanelsAsWritten(clock: nat -> int) returns (r: Result<seq<Record>, Raised>)
      ensures r == RecordsAsWritten(SortByPriority(entries), clock, 0)
    {
      r := CollectAsWritten(SortByPriority(entries), clock);
    }

    /** `_store_panel_data(data)`: one row per record, in order. */
    method StorePanelData(table: PanelDataTable, data: seq<Record>)
      modifies table
      ensures |table.rows| == |old(table.rows)| + |data| && table.rows[..|old(table.rows)|] == old(table.rows)
      ensures forall i :: 0 <= i < |data| ==> table.rows[|old(table.rows)| + i] == StoredRowFor(data[i])
    {
      var i := 0;
      while i < |data|
        invariant 0 <= i <= |data| && |table.rows| == |old(table.rows)| + i
        invariant table.rows[..|old(table.rows)|] == old(table.rows)
        invariant forall j :: 0 <= j < i ==> table.rows[|old(table.rows)| + j] == StoredRowFor(data[j])
      {
        table.rows := table.rows + [StoredRowFor(data[i])];
        i := i + 1;
      }
    }

    /** `update_panels()`: returns exactly the records it stores. */
    method UpdatePanels(table: PanelDataTable, clock: nat -> int) returns (raw: seq<Record>)
      modifies table
      ensures |raw| == |entries|
      ensures forall i :: 0 <= i < |raw| ==> raw[i] == RecordFor(SortByPriority(entries)[i], clock(i))
      ensures |table.rows| == |old(table.rows)| + |raw| && table.rows[..|old(table.rows)|] == old(table.rows)
      ensures forall i :: 0 <= i < |raw| ==> table.rows[|old(table.rows)| + i] == StoredRowFor(raw[i])
    {
      raw := GetDataForPanels(clock);
      StorePanelData(table, raw);
    }
  }
}
