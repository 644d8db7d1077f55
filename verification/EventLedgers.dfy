/**
  What whole runs of appends leave behind: an invoice for every logged invoice event and no
  other, the shifts the log speaks of, and a replay that lists both.
 */
module EventLedgers {
  import opened Wrappers
  import opened Json
  import opened HashChain
  import opened Columns
  import opened EventTables
  import opened EventEffects
  import opened EventReplay
  import opened EventIsolation
  import opened EventRuns
  import opened EventAppends
  import EventDrift

  // ---------------------------------------------------------------- invoices

  function InvoiceEvents(log: seq<Event>): seq<Event> {
    if log == [] then []
    else InvoiceEvents(log[..|log| - 1]) + if log[|log| - 1].kind.InvoiceRecorded? then [log[|log| - 1]] else []
  }

  /**
    The invoices a tenant has gained, one id for each of these events: as the event says, under
    ids that were free; what was there is untouched and nothing else has come.
   */
  ghost predicate Ledger(rt: Runtime, seed: Tables, now: Tables, tenant: string, events: seq<Event>, ids: seq<string>) {
    && |ids| == |events|
    && (forall i, j | 0 <= i < j < |ids| :: ids[i] != ids[j])
    && (forall i | 0 <= i < |ids| ::
          && ids[i] !in seed.invoices && ids[i] in now.invoices
          && InvoiceSays(rt, events[i].payload, tenant, events[i].time, now.invoices[ids[i]]))
    && (forall k | k in seed.invoices :: k in now.invoices && now.invoices[k] == seed.invoices[k])
    && (forall k | k in now.invoices && now.invoices[k].tenant == tenant :: k in seed.invoices || k in ids)
  }

  /** An accepted call adds the one invoice it asks for, if it is an invoice, and none otherwise. */
  lemma InvoicesAfter(rt: Runtime, t: Tables, u: Tables, c: Call)
    requires Acceptable(rt, t, c) && Writes(rt, t, u, c)
    ensures if c.kind.InvoiceRecorded? then
              var id := InvoiceIdOf(c);
              && id.Some? && id.value !in t.invoices && id.value in u.invoices
              && u.invoices == t.invoices[id.value := u.invoices[id.value]]
              && InvoiceSays(rt, c.payload, c.tenant, c.time, u.invoices[id.value])
            else u.invoices == t.invoices
  {
    KindsWriteTheirOwn(rt, t, u, c);
    ListWrites(rt, t, u, c);
    if c.kind.InvoiceRecorded? { InvoiceKeepsTheRest(rt, t, u, c); }
    hide InvoiceSays, InvoiceIdOf, Acceptable, Writes, WritesOrder, WritesInvoice, WritesShift;
  }

  lemma NothingGained(rt: Runtime, seed: Tables, tenant: string)
    ensures Ledger(rt, seed, seed, tenant, [], [])
  {
  }

  lemma OneMoreInvoice(rt: Runtime, seed: Tables, t: Tables, u: Tables, c: Call, tenant: string, events: seq<Event>,
                       ids: seq<string>, e: Event)
    requires Ledger(rt, seed, t, tenant, events, ids) && Acceptable(rt, t, c) && Writes(rt, t, u, c)
    requires e.kind == c.kind && e.payload == c.payload && e.time == c.time
    ensures if c.tenant == tenant && c.kind.InvoiceRecorded?
            then InvoiceIdOf(c).Some? && Ledger(rt, seed, u, tenant, events + [e], ids + [InvoiceIdOf(c).value])
            else Ledger(rt, seed, u, tenant, events, ids)
  {
    InvoicesAfter(rt, t, u, c);
    hide Acceptable, Writes, InvoiceIdOf, InvoiceSays, Ledger;
    if !c.kind.InvoiceRecorded? {
      SameLedger(rt, seed, t, u, tenant, events, ids);
    } else {
      var id := InvoiceIdOf(c).value;
      SaysItsTenant(rt, c, u.invoices[id]);
      if c.tenant == tenant {
        OwnInvoice(rt, seed, t, u, tenant, events, ids, e, id);
      } else {
        ForeignInvoice(rt, seed, t, u, tenant, events, ids, id);
      }
    }
  }

  lemma SameLedger(rt: Runtime, seed: Tables, t: Tables, u: Tables, tenant: string, events: seq<Event>,
                   ids: seq<string>)
    requires Ledger(rt, seed, t, tenant, events, ids) && u.invoices == t.invoices
    ensures Ledger(rt, seed, u, tenant, events, ids)
  {
    hide InvoiceSays;
  }

  lemma OwnInvoice(rt: Runtime, seed: Tables, t: Tables, u: Tables, tenant: string, events: seq<Event>,
                   ids: seq<string>, e: Event, id: string)
    requires Ledger(rt, seed, t, tenant, events, ids) && id !in t.invoices && id in u.invoices
    requires u.invoices == t.invoices[id := u.invoices[id]]
    requires InvoiceSays(rt, e.payload, tenant, e.time, u.invoices[id])
    ensures Ledger(rt, seed, u, tenant, events + [e], ids + [id])
  {
    hide InvoiceSays;
    var more := ids + [id];
    assert forall k :: k in more <==> k in ids || k == id;
  }

  lemma ForeignInvoice(rt: Runtime, seed: Tables, t: Tables, u: Tables, tenant: string, events: seq<Event>,
                       ids: seq<string>, id: string)
    requires Ledger(rt, seed, t, tenant, events, ids) && id !in t.invoices && id in u.invoices
    requires u.invoices == t.invoices[id := u.invoices[id]] && u.invoices[id].tenant != tenant
    ensures Ledger(rt, seed, u, tenant, events, ids)
  {
    hide InvoiceSays;
  }

  lemma SaysItsTenant(rt: Runtime, c: Call, row: Invoice)
    requires InvoiceSays(rt, c.payload, c.tenant, c.time, row)
    ensures row.tenant == c.tenant
  {
  }

  lemma InvoiceEventsOfMore(log: seq<Event>, e: Event)
    ensures InvoiceEvents(log + [e]) == InvoiceEvents(log) + if e.kind.InvoiceRecorded? then [e] else []
  {
    assert (log + [e])[..|log|] == log;
  }

  /** One more call keeps the ledger, with one more id if it is an accepted invoice of the tenant. */
  lemma AppendKeepsLedger(env: Env, seed: Tables, s: Store, c: Call, tenant: string, ids: seq<string>)
    returns (more: seq<string>)
    requires Append(env, s, c).Success? ==> ReadLast(env, s, c)
    requires Ledger(env.rt, seed, s.tables, tenant, InvoiceEvents(LogOf(s, tenant)), ids)
    ensures var u := After(env, s, c); Ledger(env.rt, seed, u.tables, tenant, InvoiceEvents(LogOf(u, tenant)), more)
  {
    more := ids;
    AppendWrites(env, s, c);
    hide Append, ReadLast, Ledger, Acceptable, Writes, Logged, LogOf;
    if Append(env, s, c).Success? {
      var u, e := After(env, s, c), Recorded(env, s, c);
      SaysTheCall(env, s, c);
      OneMoreInvoice(env.rt, seed, s.tables, u.tables, c, tenant, InvoiceEvents(LogOf(s, tenant)), ids, e);
      if c.tenant == tenant {
        AppendReadLast(env, s, c);
        InvoiceEventsOfMore(LogOf(s, tenant), e);
        if c.kind.InvoiceRecorded? { more := ids + [InvoiceIdOf(c).value]; }
        assert InvoiceEvents(LogOf(s, tenant)) + [] == InvoiceEvents(LogOf(s, tenant));
      }
    }
  }

  lemma SaysTheCall(env: Env, s: Store, c: Call)
    ensures var e := Recorded(env, s, c); e.kind == c.kind && e.payload == c.payload && e.time == c.time
  {
  }

  /** A tenant's invoices grow by exactly its logged invoice events, each as its event says. */
  lemma {:induction false} InvoicesAreLogged(env: Env, seed: Store, calls: seq<Call>, tenant: string)
    returns (ids: seq<string>)
    requires LogOf(seed, tenant) == [] && Ordered(env, seed, calls)
    ensures var s := Run(env, seed, calls);
            Ledger(env.rt, seed.tables, s.tables, tenant, InvoiceEvents(LogOf(s, tenant)), ids)
  {
    hide Append, ReadLast, Ledger;
    if calls == [] {
      NothingGained(env.rt, seed.tables, tenant);
      ids := [];
    } else {
      var before := calls[..|calls| - 1];
      ids := InvoicesAreLogged(env, seed, before, tenant);
      ids := AppendKeepsLedger(env, seed.tables, Run(env, seed, before), calls[|calls| - 1], tenant, ids);
    }
  }

  // ---------------------------------------------------------------- what was delivered

  /** How much of a SKU a tenant's invoice lines bill. */
  function Billed(rows: seq<InvoiceLine>, tenant: string, sku: string): real {
    if rows == [] then 0.0
    else
      var last := rows[|rows| - 1];
      Billed(rows[..|rows| - 1], tenant, sku) + if last.tenant == tenant && last.sku == sku then last.quantity else 0.0
  }

  /** How much of a SKU a payload line lists, as the column keeps it. */
  function Listed(rt: Runtime, line: Json, sku: string): real {
    if line.Obj? && Get(line.fields, "supplier_sku_id") == Str(sku) && Figure(rt, line.fields, "quantity").Some?
    then TenThousandths(Figure(rt, line.fields, "quantity").value)
    else 0.0
  }

  function AllListed(rt: Runtime, lines: seq<Json>, sku: string): real {
    if lines == [] then 0.0 else AllListed(rt, lines[..|lines| - 1], sku) + Listed(rt, lines[|lines| - 1], sku)
  }

  /** How much of a SKU the logged invoices list. */
  function ListedInLog(rt: Runtime, log: seq<Event>, sku: string): real {
    if log == [] then 0.0
    else
      var e := log[|log| - 1];
      ListedInLog(rt, log[..|log| - 1], sku)
      + if e.kind.InvoiceRecorded? && LinesOf(e.payload).Some? then AllListed(rt, LinesOf(e.payload).value, sku)
        else 0.0
  }

  lemma OneMoreLine(rt: Runtime, rows: seq<InvoiceLine>, row: InvoiceLine, line: Json, tenant: string, invoice: string,
                    other: string, sku: string)
    requires InvoiceLineWritten(rt, line, row, tenant, invoice)
    ensures Billed(rows + [row], other, sku)
         == Billed(rows, other, sku) + if other == tenant then Listed(rt, line, sku) else 0.0
  {
    assert (rows + [row])[..|rows|] == rows;
    hide TenThousandths;
  }

  /** Rows written line by line bill what the lines list. */
  lemma {:induction false} LinesBill(rt: Runtime, before: seq<InvoiceLine>, after: seq<InvoiceLine>, lines: seq<Json>,
                                     tenant: string, invoice: string, other: string, sku: string)
    requires before <= after && |after| == |before| + |lines|
    requires forall k | 0 <= k < |lines| :: InvoiceLineWritten(rt, lines[k], after[|before| + k], tenant, invoice)
    ensures Billed(after, other, sku)
         == Billed(before, other, sku) + if other == tenant then AllListed(rt, lines, sku) else 0.0
    decreases |lines|
  {
    hide InvoiceLineWritten, Billed, Listed;
    if lines == [] {
      assert after == before;
    } else {
      var fewer, rows := lines[..|lines| - 1], after[..|after| - 1];
      forall k | 0 <= k < |fewer| ensures InvoiceLineWritten(rt, fewer[k], rows[|before| + k], tenant, invoice) {
        assert InvoiceLineWritten(rt, lines[k], after[|before| + k], tenant, invoice);
      }
      LinesBill(rt, before, rows, fewer, tenant, invoice, other, sku);
      assert InvoiceLineWritten(rt, lines[|fewer|], after[|before| + |fewer|], tenant, invoice);
      OneMoreLine(rt, rows, after[|after| - 1], lines[|lines| - 1], tenant, invoice, other, sku);
      assert after == rows + [after[|after| - 1]];
    }
  }

  lemma BillsAfter(rt: Runtime, t: Tables, u: Tables, c: Call, tenant: string, sku: string)
    requires Acceptable(rt, t, c) && Writes(rt, t, u, c)
    ensures Billed(u.invoiceLines, tenant, sku)
         == Billed(t.invoiceLines, tenant, sku)
            + if c.tenant == tenant && c.kind.InvoiceRecorded? && LinesOf(c.payload).Some?
              then AllListed(rt, LinesOf(c.payload).value, sku) else 0.0
  {
    KindsWriteTheirOwn(rt, t, u, c);
    ListWrites(rt, t, u, c);
    hide InvoiceSays, InvoiceIdOf, InvoiceLineWritten, Acceptable, Writes, WritesOrder, WritesShift, Billed, AllListed,
         LinesOf;
    if c.kind.InvoiceRecorded? {
      LinesBill(rt, t.invoiceLines, u.invoiceLines, LinesOf(c.payload).value, c.tenant, InvoiceIdOf(c).value, tenant,
                sku);
    }
  }

  lemma AppendBills(env: Env, s: Store, c: Call, tenant: string, sku: string)
    requires Append(env, s, c).Success? ==> ReadLast(env, s, c)
    ensures var u := After(env, s, c);
            Billed(u.tables.invoiceLines, tenant, sku) - ListedInLog(env.rt, LogOf(u, tenant), sku)
            == Billed(s.tables.invoiceLines, tenant, sku) - ListedInLog(env.rt, LogOf(s, tenant), sku)
  {
    AppendWrites(env, s, c);
    hide Append, ReadLast, Acceptable, Writes, Billed, AllListed, LinesOf;
    if Append(env, s, c).Success? {
      BillsAfter(env.rt, s.tables, After(env, s, c).tables, c, tenant, sku);
      if c.tenant == tenant {
        AppendReadLast(env, s, c);
        assert (LogOf(s, tenant) + [Recorded(env, s, c)])[..|LogOf(s, tenant)|] == LogOf(s, tenant);
      }
    }
  }

  /** Per SKU, the quantities a tenant's invoice lines bill grow by exactly what its logged invoices list. */
  lemma {:induction false} BillsAddUp(env: Env, seed: Store, calls: seq<Call>, tenant: string, sku: string)
    requires LogOf(seed, tenant) == [] && Ordered(env, seed, calls)
    ensures var s := Run(env, seed, calls);
            Billed(s.tables.invoiceLines, tenant, sku)
            == Billed(seed.tables.invoiceLines, tenant, sku) + ListedInLog(env.rt, LogOf(s, tenant), sku)
  {
    hide Append, ReadLast, Billed;
    if calls == [] {
      assert ListedInLog(env.rt, [], sku) == 0.0;
    } else {
      var before := calls[..|calls| - 1];
      BillsAddUp(env, seed, before, tenant, sku);
      AppendBills(env, Run(env, seed, before), calls[|calls| - 1], tenant, sku);
    }
  }

  // ---------------------------------------------------------------- shifts

  function LastStaffing(log: seq<Event>): Option<Event> {
    if log == [] then None
    else if log[|log| - 1].kind.StaffingChange? then Some(log[|log| - 1])
    else LastStaffing(log[..|log| - 1])
  }

  /** The latest staffing event is in force, and every shift is a seeded one or as some logged event says. */
  ghost predicate Staffed(rt: Runtime, seed: Tables, now: Tables, tenant: string, log: seq<Event>) {
    && (LastStaffing(log).Some? ==>
          exists k | k in now.shifts :: ShiftSays(rt, LastStaffing(log).value.payload, tenant, now.shifts[k]))
    && (forall k | k in now.shifts && now.shifts[k].tenant == tenant ::
          || (k in seed.shifts && now.shifts[k] == seed.shifts[k])
          || (exists e | e in log :: e.kind.StaffingChange? && ShiftSays(rt, e.payload, tenant, now.shifts[k])))
  }

  /** An accepted call moves one shift of its tenant, if it is a staffing change, and none otherwise. */
  lemma ShiftsAfter(rt: Runtime, t: Tables, u: Tables, c: Call)
    requires Acceptable(rt, t, c) && Writes(rt, t, u, c)
    ensures if c.kind.StaffingChange? then
              exists k | k in u.shifts ::
                && u.shifts == t.shifts[k := u.shifts[k]] && ShiftSays(rt, c.payload, c.tenant, u.shifts[k])
                && u.shifts[k].tenant == c.tenant && (k in t.shifts ==> t.shifts[k].tenant == c.tenant)
            else u.shifts == t.shifts
  {
    KindsWriteTheirOwn(rt, t, u, c);
    ListWrites(rt, t, u, c);
    if c.kind.StaffingChange? { ShiftKeepsTheRest(rt, t, u, c); }
    hide Acceptable, Writes, WritesOrder, WritesInvoice, WritesShift;
  }

  lemma StaffedOwn(rt: Runtime, seed: Tables, t: Tables, u: Tables, c: Call, log: seq<Event>, e: Event)
    requires Staffed(rt, seed, t, c.tenant, log) && Acceptable(rt, t, c) && Writes(rt, t, u, c)
    requires e.kind == c.kind && e.payload == c.payload
    ensures Staffed(rt, seed, u, c.tenant, log + [e])
  {
    ShiftsAfter(rt, t, u, c);
    hide Acceptable, Writes, ShiftSays, Staffed;
    if c.kind.StaffingChange? {
      var k :| k in u.shifts && u.shifts == t.shifts[k := u.shifts[k]]
               && ShiftSays(rt, c.payload, c.tenant, u.shifts[k]);
      NewShift(rt, seed, t, u, c.tenant, log, e, k);
    } else {
      NoNewShift(rt, seed, t, u, c.tenant, log, e);
    }
  }

  lemma NewShift(rt: Runtime, seed: Tables, t: Tables, u: Tables, tenant: string, log: seq<Event>, e: Event, k: string)
    requires Staffed(rt, seed, t, tenant, log) && e.kind.StaffingChange?
    requires k in u.shifts && u.shifts == t.shifts[k := u.shifts[k]] && ShiftSays(rt, e.payload, tenant, u.shifts[k])
    ensures Staffed(rt, seed, u, tenant, log + [e])
  {
    hide ShiftSays;
    assert (log + [e])[|log|] == e;
    forall j | j in u.shifts && u.shifts[j].tenant == tenant
      ensures (j in seed.shifts && u.shifts[j] == seed.shifts[j])
              || exists x | x in log + [e] :: x.kind.StaffingChange? && ShiftSays(rt, x.payload, tenant, u.shifts[j])
    {
      if j != k && !(j in seed.shifts && u.shifts[j] == seed.shifts[j]) {
        var x :| x in log && x.kind.StaffingChange? && ShiftSays(rt, x.payload, tenant, t.shifts[j]);
        assert x in log + [e];
      } else if j == k {
        assert e in log + [e];
      }
    }
  }

  lemma NoNewShift(rt: Runtime, seed: Tables, t: Tables, u: Tables, tenant: string, log: seq<Event>, e: Event)
    requires Staffed(rt, seed, t, tenant, log) && !e.kind.StaffingChange? && u.shifts == t.shifts
    ensures Staffed(rt, seed, u, tenant, log + [e])
  {
    hide ShiftSays;
    assert (log + [e])[..|log|] == log;
    forall j | j in u.shifts && u.shifts[j].tenant == tenant && !(j in seed.shifts && u.shifts[j] == seed.shifts[j])
      ensures exists x | x in log + [e] :: x.kind.StaffingChange? && ShiftSays(rt, x.payload, tenant, u.shifts[j])
    {
      var x :| x in log && x.kind.StaffingChange? && ShiftSays(rt, x.payload, tenant, t.shifts[j]);
      assert x in log + [e];
    }
  }

  lemma StaffedForeign(rt: Runtime, seed: Tables, t: Tables, u: Tables, c: Call, tenant: string, log: seq<Event>)
    requires Staffed(rt, seed, t, tenant, log) && Acceptable(rt, t, c) && Writes(rt, t, u, c) && c.tenant != tenant
    ensures Staffed(rt, seed, u, tenant, log)
  {
    ShiftsAfter(rt, t, u, c);
    hide Acceptable, Writes;
    if LastStaffing(log).Some? {
      var k :| k in t.shifts && ShiftSays(rt, LastStaffing(log).value.payload, tenant, t.shifts[k]);
      assert k in u.shifts && u.shifts[k] == t.shifts[k];
    }
  }

  /** After every run the shifts of a tenant are the seeded ones and what its log says, the latest change in force. */
  lemma {:induction false} ShiftsAreLogged(env: Env, seed: Store, calls: seq<Call>, tenant: string)
    requires LogOf(seed, tenant) == [] && Ordered(env, seed, calls)
    ensures var s := Run(env, seed, calls); Staffed(env.rt, seed.tables, s.tables, tenant, LogOf(s, tenant))
  {
    hide Append, ReadLast, Acceptable, Writes, ShiftSays;
    if calls != [] {
      var before, c := calls[..|calls| - 1], calls[|calls| - 1];
      var s, u := Run(env, seed, before), Run(env, seed, calls);
      ShiftsAreLogged(env, seed, before, tenant);
      AppendWrites(env, s, c);
      SaysTheCall(env, s, c);
      hide Staffed, Logged, LogOf;
      if Append(env, s, c).Success? {
        if c.tenant == tenant {
          AppendReadLast(env, s, c);
          StaffedOwn(env.rt, seed.tables, s.tables, u.tables, c, LogOf(s, tenant), Recorded(env, s, c));
        } else {
          StaffedForeign(env.rt, seed.tables, s.tables, u.tables, c, tenant, LogOf(s, tenant));
        }
      }
    }
  }

  // ---------------------------------------------------------------- what replay lists

  predicate InvoiceViewSays(view: InvoiceView, e: Event) {
    && view.supplier == Get(e.payload, "supplier_id") && view.number == Get(e.payload, "invoice_number")
    && view.total == Get(e.payload, "total_amount") && view.time == e.time && view.id == Get(e.payload, "invoice_id")
    && view.lines == GetOr(e.payload, "lines", Arr([]))
  }

  /** Replay lists the invoice events of a log in order, and nothing else as an invoice. */
  lemma {:induction false} ReplayListsInvoices(rt: Runtime, skus: map<string, Sku>, tenant: string, log: seq<Event>)
    requires Replay(rt, skus, tenant, log).Success?
    ensures var views, events := Replay(rt, skus, tenant, log).value.invoices, InvoiceEvents(log);
            |views| == |events| && forall i | 0 <= i < |views| :: InvoiceViewSays(views[i], events[i])
  {
    hide ReplayEvent, InvoiceViewSays;
    if log != [] {
      var before := log[..|log| - 1];
      ReplayListsInvoices(rt, skus, tenant, before);
      InvoicesListed(rt, skus, tenant, Replay(rt, skus, tenant, before).value, log[|log| - 1]);
    }
  }

  lemma InvoicesListed(rt: Runtime, skus: map<string, Sku>, tenant: string, v: View, e: Event)
    requires ReplayEvent(rt, skus, tenant, v, e).Success?
    ensures var views := ReplayEvent(rt, skus, tenant, v, e).value.invoices;
            if e.kind.InvoiceRecorded? then |views| == |v.invoices| + 1 && views[..|v.invoices|] == v.invoices
                                            && InvoiceViewSays(views[|v.invoices|], e)
            else views == v.invoices
  {
    hide ReplayStock, ReplaySupplierPrice, ReplaySupplierSwitch, ReplayMenuPrice, ReplayMenuRemoved, ReplayMenuAdded,
         ReplayStaffing;
    StockKeepsLists(rt, v, e);
    SuppliersKeepLists(skus, tenant, v, e);
    MenuKeepsLists(v, e);
    StaffingKeepsInvoices(rt, v, e);
  }

  lemma StockKeepsLists(rt: Runtime, v: View, e: Event)
    ensures var w := ReplayStock(rt, v, e.kind, e.payload, e.time);
            w.Success? ==> w.value.invoices == v.invoices && w.value.staffing == v.staffing
  {
    hide ReplayLevel;
  }

  lemma SuppliersKeepLists(skus: map<string, Sku>, tenant: string, v: View, e: Event)
    ensures var w := ReplaySupplierPrice(skus, tenant, v, e.payload);
            w.invoices == v.invoices && w.staffing == v.staffing
    ensures var w := ReplaySupplierSwitch(v, e.payload); w.invoices == v.invoices && w.staffing == v.staffing
  {
  }

  lemma MenuKeepsLists(v: View, e: Event)
    ensures var w := ReplayMenuPrice(v, e.payload); w.invoices == v.invoices && w.staffing == v.staffing
    ensures var w := ReplayMenuRemoved(v, e.payload); w.invoices == v.invoices && w.staffing == v.staffing
    ensures var w := ReplayMenuAdded(v, e.payload); w.invoices == v.invoices && w.staffing == v.staffing
  {
  }

  lemma StaffingKeepsInvoices(rt: Runtime, v: View, e: Event)
    ensures ReplayStaffing(rt, v, e.payload).invoices == v.invoices
  {
  }

  /** What replay says of the i-th invoice is what its row holds, the total to the cent. */
  predicate ViewAgrees(rt: Runtime, view: InvoiceView, row: Invoice) {
    && view.supplier == Str(row.supplier) && rt.show(view.number) == row.number && view.time == row.time
    && (if view.total.Null? && row.total == 0.0 then true
        else rt.number(view.total).Some? && row.total == Cents(rt.number(view.total).value))
  }

  /** After every run replay succeeds and lists one invoice for each row a tenant has gained, and agrees with it. */
  lemma ReplayListsTheLedger(env: Env, seed: Store, calls: seq<Call>, tenant: string) returns (ids: seq<string>)
    requires LogOf(seed, tenant) == [] && Ordered(env, seed, calls)
    ensures var s := Run(env, seed, calls);
            var view := Replay(env.rt, s.tables.skus, tenant, LogOf(s, tenant));
            && Ledger(env.rt, seed.tables, s.tables, tenant, InvoiceEvents(LogOf(s, tenant)), ids)
            && view.Success? && |view.value.invoices| == |ids|
            && forall i | 0 <= i < |ids| :: ViewAgrees(env.rt, view.value.invoices[i], s.tables.invoices[ids[i]])
  {
    ids := InvoicesAreLogged(env, seed, calls, tenant);
    EventDrift.RunStaysNear(env, seed, calls, tenant);
    var s := Run(env, seed, calls);
    hide Run, Append, ReadLast, Replay;
    ReplayListsInvoices(env.rt, s.tables.skus, tenant, LogOf(s, tenant));
    var views := Replay(env.rt, s.tables.skus, tenant, LogOf(s, tenant)).value.invoices;
    var events := InvoiceEvents(LogOf(s, tenant));
    forall i | 0 <= i < |ids| ensures ViewAgrees(env.rt, views[i], s.tables.invoices[ids[i]]) {
      assert InvoiceSays(env.rt, events[i].payload, tenant, events[i].time, s.tables.invoices[ids[i]]);
      assert InvoiceViewSays(views[i], events[i]);
      SaysAlike(env.rt, events[i], tenant, s.tables.invoices[ids[i]], views[i]);
    }
  }

  lemma SaysAlike(rt: Runtime, e: Event, tenant: string, row: Invoice, view: InvoiceView)
    requires InvoiceSays(rt, e.payload, tenant, e.time, row) && InvoiceViewSays(view, e)
    ensures ViewAgrees(rt, view, row)
  {
    assert Cents(0.0) == 0.0;
  }

  /** The demand spikes of a log, as replay keeps them. */
  function Spikes(log: seq<Event>): seq<(int, Payload)> {
    if log == [] then []
    else
      var e := log[|log| - 1];
      Spikes(log[..|log| - 1]) + if e.kind.DemandSpike? then [(e.time, e.payload)] else []
  }

  lemma {:induction false} ReplayListsSpikes(rt: Runtime, skus: map<string, Sku>, tenant: string, log: seq<Event>)
    requires Replay(rt, skus, tenant, log).Success?
    ensures Replay(rt, skus, tenant, log).value.informational == Spikes(log)
  {
    hide ReplayEvent;
    if log != [] {
      var before := log[..|log| - 1];
      ReplayListsSpikes(rt, skus, tenant, before);
      SpikeListed(rt, skus, tenant, Replay(rt, skus, tenant, before).value, log[|log| - 1]);
    }
  }

  lemma SpikeListed(rt: Runtime, skus: map<string, Sku>, tenant: string, v: View, e: Event)
    requires ReplayEvent(rt, skus, tenant, v, e).Success?
    ensures ReplayEvent(rt, skus, tenant, v, e).value.informational
         == v.informational + if e.kind.DemandSpike? then [(e.time, e.payload)] else []
  {
    OthersKeepSpikes(rt, skus, tenant, v, e);
    hide ReplayStock, ReplaySupplierPrice, ReplaySupplierSwitch, ReplayMenuPrice, ReplayMenuRemoved, ReplayMenuAdded,
         ReplayStaffing, Get, GetOr;
  }

  lemma OthersKeepSpikes(rt: Runtime, skus: map<string, Sku>, tenant: string, v: View, e: Event)
    ensures ReplayStock(rt, v, e.kind, e.payload, e.time).Success? ==>
              ReplayStock(rt, v, e.kind, e.payload, e.time).value.informational == v.informational
    ensures ReplaySupplierPrice(skus, tenant, v, e.payload).informational == v.informational
    ensures ReplaySupplierSwitch(v, e.payload).informational == v.informational
    ensures ReplayMenuPrice(v, e.payload).informational == v.informational
    ensures ReplayMenuRemoved(v, e.payload).informational == v.informational
    ensures ReplayMenuAdded(v, e.payload).informational == v.informational
    ensures ReplayStaffing(rt, v, e.payload).informational == v.informational
  {
    hide ReplayLevel;
  }

  /** The last event that sets the headcount filed under these texts of role and day. */
  function LastNaming(rt: Runtime, log: seq<Event>, key: string): Option<Event> {
    if log == [] then None
    else
      var e := log[|log| - 1];
      if Names(rt, e, key) then Some(e) else LastNaming(rt, log[..|log| - 1], key)
  }

  predicate Names(rt: Runtime, e: Event, key: string) {
    var role, day := Get(e.payload, "role"), Get(e.payload, "day_of_week");
    e.kind.StaffingChange? && !role.Null? && !day.Null? && rt.show(role) + ":" + rt.show(day) == key
  }

  predicate HeadcountSays(view: StaffingView, e: Event) {
    && view.role == Get(e.payload, "role") && view.day == Get(e.payload, "day_of_week")
    && view.headcount == Get(e.payload, "headcount")
  }

  lemma HeadcountShown(rt: Runtime, skus: map<string, Sku>, tenant: string, v: View, e: Event, key: string)
    requires ReplayEvent(rt, skus, tenant, v, e).Success?
    ensures var w := ReplayEvent(rt, skus, tenant, v, e).value.staffing;
            if Names(rt, e, key) then key in w && HeadcountSays(w[key], e)
            else (key in w <==> key in v.staffing) && (key in w ==> w[key] == v.staffing[key])
  {
    if e.kind.StaffingChange? {
      HeadcountSet(rt, v, e, key);
      hide ReplayStock, ReplaySupplierPrice, ReplaySupplierSwitch, ReplayMenuPrice, ReplayMenuRemoved,
           ReplayMenuAdded, ReplayStaffing, Get, HeadcountSays, Names;
    } else {
      OthersKeepHeadcounts(rt, skus, tenant, v, e);
      hide ReplayEvent, Get;
    }
  }

  lemma OthersKeepHeadcounts(rt: Runtime, skus: map<string, Sku>, tenant: string, v: View, e: Event)
    requires ReplayEvent(rt, skus, tenant, v, e).Success? && !e.kind.StaffingChange?
    ensures ReplayEvent(rt, skus, tenant, v, e).value.staffing == v.staffing
  {
    hide ReplayStock, ReplaySupplierPrice, ReplaySupplierSwitch, ReplayMenuPrice, ReplayMenuRemoved, ReplayMenuAdded,
         ReplayStaffing, Get, GetOr;
    StockKeepsLists(rt, v, e);
    SuppliersKeepLists(skus, tenant, v, e);
    MenuKeepsLists(v, e);
    StaffingKeepsInvoices(rt, v, e);
  }

  lemma HeadcountSet(rt: Runtime, v: View, e: Event, key: string)
    requires e.kind.StaffingChange?
    ensures var w := ReplayStaffing(rt, v, e.payload).staffing;
            if Names(rt, e, key) then key in w && HeadcountSays(w[key], e)
            else (key in w <==> key in v.staffing) && (key in w ==> w[key] == v.staffing[key])
  {
  }

  /** The headcount replay shows for a role and a day is that of the last event that names both. */
  lemma {:induction false} ReplayShowsHeadcount(rt: Runtime, skus: map<string, Sku>, tenant: string, log: seq<Event>,
                                                key: string)
    requires Replay(rt, skus, tenant, log).Success?
    ensures var staffing, last := Replay(rt, skus, tenant, log).value.staffing, LastNaming(rt, log, key);
            (key in staffing <==> last.Some?) && (last.Some? ==> HeadcountSays(staffing[key], last.value))
  {
    hide ReplayEvent, HeadcountSays, Names;
    if log != [] {
      var before := log[..|log| - 1];
      ReplayShowsHeadcount(rt, skus, tenant, before, key);
      HeadcountShown(rt, skus, tenant, Replay(rt, skus, tenant, before).value, log[|log| - 1], key);
    }
  }
}
