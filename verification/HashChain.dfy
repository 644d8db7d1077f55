/**
  The per-tenant hash chain: what is hashed, how a chain is verified, what a verified chain
  rules out, and exactly when one more append leaves it verified.
 */
module HashChain {
  import opened Wrappers
  import opened Json

  datatype EventType =
    | SupplierPriceChange | SupplierSwitch
    | Stockout | Restock | InventoryAdjustment | WasteRecorded
    | DemandSpike | OrderRecorded
    | MenuItemAdded | MenuItemRemoved | MenuPriceChange
    | StaffingChange | InvoiceRecorded

  function Name(kind: EventType): string {
    match kind
    case SupplierPriceChange => "supplier_price_change"
    case SupplierSwitch => "supplier_switch"
    case Stockout => "stockout"
    case Restock => "restock"
    case InventoryAdjustment => "inventory_adjustment"
    case WasteRecorded => "waste_recorded"
    case DemandSpike => "demand_spike"
    case OrderRecorded => "order_recorded"
    case MenuItemAdded => "menu_item_added"
    case MenuItemRemoved => "menu_item_removed"
    case MenuPriceChange => "menu_price_change"
    case StaffingChange => "staffing_change"
    case InvoiceRecorded => "invoice_recorded"
  }

  datatype Event = Event(
    time: int,
    id: int,
    kind: EventType,
    payload: Payload,
    source: string,
    hash: string,
    previous: string)

  /** The digest and the time stamp text, as the chain sees them: digests are hexadecimal. */
  datatype Digest = Digest(sum: string -> string, iso: int -> string)

  function Zeros(n: nat): (r: string)
    ensures |r| == n && forall i | 0 <= i < n :: r[i] == '0'
  {
    if n == 0 then "" else "0" + Zeros(n - 1)
  }

  const GENESIS := Zeros(64)

  /** No bar in a digest or a time stamp, and one text a time stamp. */
  ghost predicate Plain(d: Digest) {
    && (forall text :: '|' !in d.sum(text))
    && (forall t :: '|' !in d.iso(t))
    && (forall t, u :: d.iso(t) == d.iso(u) ==> t == u)
  }

  ghost predicate Storable(e: Event) { WellFormed(Obj(e.payload)) }

  // ---------------------------------------------------------------- the hashed text

  function Text(d: Digest, previous: string, kind: EventType, payload: Payload, time: int, source: string): string {
    previous + "|" + (Name(kind) + "|" + (Dump(Obj(payload)) + ("|" + (d.iso(time) + "|" + source))))
  }

  function TextOf(d: Digest, e: Event): string {
    Text(d, e.previous, e.kind, e.payload, e.time, e.source)
  }

  /** Everything an event says that its hash covers; the row id is not among it. */
  predicate SameContent(a: Event, b: Event) {
    a.previous == b.previous && a.kind == b.kind && a.payload == b.payload
    && a.time == b.time && a.source == b.source && a.hash == b.hash
  }

  /** A bar-free prefix ends at the first bar. */
  lemma FirstBar(p: string, q: string, x: string, y: string)
    requires '|' !in p && '|' !in q && p + "|" + x == q + "|" + y
    ensures p == q && x == y
  {
    BarAt(p, x, |q|);
    BarAt(q, y, |p|);
    assert (p + "|" + x)[..|p|] == p && (q + "|" + y)[..|q|] == q;
    assert (p + "|" + x)[|p| + 1..] == x && (q + "|" + y)[|q| + 1..] == y;
  }

  lemma BarAt(p: string, x: string, i: nat)
    requires '|' !in p
    ensures (p + "|" + x)[|p|] == '|'
    ensures i < |p| ==> (p + "|" + x)[i] != '|'
  {
  }

  /** Enough of a name to tell the kind: its length and two of its letters. */
  function Tag(kind: EventType): (int, char, char) {
    (|Name(kind)|, Name(kind)[1], Name(kind)[5])
  }

  lemma TagsDiffer(a: EventType, b: EventType)
    requires Tag(a) == Tag(b)
    ensures a == b
  {
  }

  lemma NamesArePlain(a: EventType)
    ensures '|' !in Name(a)
  {
  }

  /** The joined text determines every part that went into it. */
  lemma TextDeterminesContent(d: Digest, a: Event, b: Event)
    requires Plain(d) && Storable(a) && Storable(b)
    requires '|' !in a.previous && '|' !in b.previous
    requires TextOf(d, a) == TextOf(d, b)
    ensures a.previous == b.previous && a.kind == b.kind && a.payload == b.payload
    ensures a.time == b.time && a.source == b.source
  {
    hide Dump, Name;
    var x, y := d.iso(a.time) + "|" + a.source, d.iso(b.time) + "|" + b.source;
    var v, w := Dump(Obj(a.payload)) + ("|" + x), Dump(Obj(b.payload)) + ("|" + y);
    FirstBar(a.previous, b.previous, Name(a.kind) + "|" + v, Name(b.kind) + "|" + w);
    NamesArePlain(a.kind);
    NamesArePlain(b.kind);
    FirstBar(Name(a.kind), Name(b.kind), v, w);
    TagsDiffer(a.kind, b.kind);
    ObjectTextIsSelfDelimiting(a.payload, b.payload, "|" + x, "|" + y);
    assert ("|" + x)[1..] == x && ("|" + y)[1..] == y;
    FirstBar(d.iso(a.time), d.iso(b.time), a.source, b.source);
  }

  // ---------------------------------------------------------------- verification

  function Before(log: seq<Event>, i: nat): string
    requires i <= |log|
  {
    if i == 0 then GENESIS else log[i - 1].hash
  }

  predicate Linked(d: Digest, log: seq<Event>, i: nat)
    requires i < |log|
  {
    log[i].previous == Before(log, i) && log[i].hash == d.sum(TextOf(d, log[i]))
  }

  predicate Verifies(d: Digest, log: seq<Event>) {
    forall i | 0 <= i < |log| :: Linked(d, log, i)
  }

  datatype Fault = BrokenLink(id: int) | HashMismatch(id: int)

  /** What verification finds at one event of a log. */
  function Check(d: Digest, log: seq<Event>, i: nat): Option<Fault>
    requires i < |log|
  {
    if log[i].previous != Before(log, i) then Some(BrokenLink(log[i].id))
    else if log[i].hash != d.sum(TextOf(d, log[i])) then Some(HashMismatch(log[i].id))
    else None
  }

  /** `verify_chain_integrity`: the log verifies, or the first faulty event is reported. */
  method VerifyChain(d: Digest, log: seq<Event>) returns (fault: Option<Fault>)
    ensures fault.None? <==> Verifies(d, log)
    ensures fault.Some? ==>
              exists i | 0 <= i < |log| :: Check(d, log, i) == fault && forall j | 0 <= j < i :: Linked(d, log, j)
  {
    hide Text;
    if log == [] { return None; }
    var expected := GENESIS;
    for i := 0 to |log|
      invariant expected == Before(log, i)
      invariant forall j | 0 <= j < i :: Linked(d, log, j)
    {
      var event := log[i];
      if event.previous != expected {
        assert !Linked(d, log, i) && Check(d, log, i) == Some(BrokenLink(event.id));
        return Some(BrokenLink(event.id));
      }
      var computed := d.sum(Text(d, event.previous, event.kind, event.payload, event.time, event.source));
      if event.hash != computed {
        assert !Linked(d, log, i) && Check(d, log, i) == Some(HashMismatch(event.id));
        return Some(HashMismatch(event.id));
      }
      expected := event.hash;
    }
    return None;
  }

  // ---------------------------------------------------------------- tamper evidence

  /** A digest that, on the events at hand, neither collides nor hits the genesis value. */
  ghost predicate NoCollision(d: Digest, events: set<Event>) {
    && (forall a, b | a in events && b in events ::
          d.sum(TextOf(d, a)) == d.sum(TextOf(d, b)) ==> TextOf(d, a) == TextOf(d, b))
    && (forall a | a in events :: d.sum(TextOf(d, a)) != GENESIS)
  }

  ghost function Events(log: seq<Event>): set<Event> { set e | e in log }

  ghost predicate AllStorable(log: seq<Event>) { forall i | 0 <= i < |log| :: Storable(log[i]) }

  lemma PreviousIsPlain(d: Digest, log: seq<Event>, i: nat)
    requires Plain(d) && Verifies(d, log) && i < |log|
    ensures '|' !in log[i].previous
  {
    assert Linked(d, log, i);
    if i > 0 { assert Linked(d, log, i - 1); }
  }

  /** Two events of verified logs with one digest say the same. */
  lemma SameDigestSameContent(d: Digest, a: seq<Event>, b: seq<Event>, i: nat, j: nat)
    requires Plain(d) && Verifies(d, a) && Verifies(d, b) && AllStorable(a) && AllStorable(b)
    requires NoCollision(d, Events(a) + Events(b))
    requires i < |a| && j < |b| && a[i].hash == b[j].hash
    ensures SameContent(a[i], b[j])
  {
    assert Linked(d, a, i) && Linked(d, b, j);
    assert a[i] in Events(a) && b[j] in Events(b);
    PreviousIsPlain(d, a, i);
    PreviousIsPlain(d, b, j);
    TextDeterminesContent(d, a[i], b[j]);
  }

  lemma GenesisComesFirst(d: Digest, log: seq<Event>, i: nat)
    requires Verifies(d, log) && NoCollision(d, Events(log)) && i <= |log| && Before(log, i) == GENESIS
    ensures i == 0
  {
    if i > 0 { assert Linked(d, log, i - 1) && log[i - 1] in Events(log); }
  }

  lemma FewerEvents(d: Digest, some: set<Event>, all: set<Event>)
    requires NoCollision(d, all) && some <= all
    ensures NoCollision(d, some)
  {
  }

  lemma BackOne(d: Digest, a: seq<Event>, b: seq<Event>, i: nat, j: nat)
    requires Plain(d) && Verifies(d, a) && Verifies(d, b) && AllStorable(a) && AllStorable(b)
    requires NoCollision(d, Events(a) + Events(b))
    requires i < |a| && j < |b| && a[i].hash == b[j].hash
    ensures SameContent(a[i], b[j]) && Before(a, i) == Before(b, j)
  {
    SameDigestSameContent(d, a, b, i, j);
    assert Linked(d, a, i) && Linked(d, b, j);
  }

  /** Walking back from one shared digest, two verified logs agree event by event. */
  lemma {:induction false} AgreeBackwards(d: Digest, a: seq<Event>, b: seq<Event>, i: nat, j: nat)
    requires Plain(d) && Verifies(d, a) && Verifies(d, b) && AllStorable(a) && AllStorable(b)
    requires NoCollision(d, Events(a) + Events(b))
    requires i <= |a| && j <= |b| && Before(a, i) == Before(b, j)
    ensures i == j && forall k | 0 <= k < i :: SameContent(a[k], b[k])
  {
    hide Plain, Verifies, AllStorable, NoCollision;
    if i == 0 || j == 0 {
      FewerEvents(d, Events(a), Events(a) + Events(b));
      FewerEvents(d, Events(b), Events(a) + Events(b));
      GenesisComesFirst(d, a, i);
      GenesisComesFirst(d, b, j);
    } else {
      BackOne(d, a, b, i - 1, j - 1);
      AgreeBackwards(d, a, b, i - 1, j - 1);
    }
  }

  /** Two verified logs that end in one digest hold the same events in the same order. */
  lemma HeadPinsTheWholeLog(d: Digest, a: seq<Event>, b: seq<Event>)
    requires Plain(d) && Verifies(d, a) && Verifies(d, b) && AllStorable(a) && AllStorable(b)
    requires NoCollision(d, Events(a) + Events(b))
    requires a != [] && b != [] && a[|a| - 1].hash == b[|b| - 1].hash
    ensures |a| == |b| && forall k | 0 <= k < |a| :: SameContent(a[k], b[k])
  {
    AgreeBackwards(d, a, b, |a|, |b|);
  }

  /** No digest occurs twice in a verified log, and none is the genesis value. */
  lemma DigestsAreDistinct(d: Digest, log: seq<Event>, i: nat, j: nat)
    requires Plain(d) && Verifies(d, log) && AllStorable(log) && NoCollision(d, Events(log))
    requires i <= |log| && j <= |log| && Before(log, i) == Before(log, j)
    ensures i == j
  {
    assert Events(log) + Events(log) == Events(log);
    AgreeBackwards(d, log, log, i, j);
  }

  // ---------------------------------------------------------------- appending

  /** Reading order: by time stamp, then by row id. */
  predicate Earlier(a: Event, b: Event) { a.time < b.time || (a.time == b.time && a.id < b.id) }

  predicate InOrder(log: seq<Event>) { forall i, j | 0 <= i < j < |log| :: Earlier(log[i], log[j]) }

  /** Where a new row comes to stand in reading order. */
  function Position(log: seq<Event>, e: Event): (p: nat)
    ensures p <= |log|
    ensures p > 0 ==> Earlier(log[p - 1], e)
    ensures forall i | p <= i < |log| :: !Earlier(log[i], e)
  {
    if log == [] then 0
    else if Earlier(log[|log| - 1], e) then |log|
    else Position(log[..|log| - 1], e)
  }

  lemma LastPosition(log: seq<Event>, e: Event)
    requires forall i | 0 <= i < |log| :: Earlier(log[i], e)
    ensures Position(log, e) == |log| && Insert(log, e) == log + [e]
  {
    if log != [] { assert Earlier(log[|log| - 1], e); }
  }

  function Insert(log: seq<Event>, e: Event): seq<Event> {
    var p := Position(log, e);
    log[..p] + [e] + log[p..]
  }

  lemma InsertKeepsOrder(log: seq<Event>, e: Event)
    requires InOrder(log) && forall i | 0 <= i < |log| :: log[i].time != e.time || log[i].id != e.id
    ensures InOrder(Insert(log, e))
  {
    var p := Position(log, e);
    var after := Insert(log, e);
    forall i, j | 0 <= i < j < |after| ensures Earlier(after[i], after[j]) {
      if i < p && j == p {
        if i < p - 1 { assert Earlier(log[i], log[p - 1]); }
      }
    }
  }

  predicate IsSpace(c: char) {
    c == ' ' || '\t' <= c <= '\r' || '\U{001c}' <= c <= '\U{001f}' || c == '\U{0085}' || c == '\U{00a0}'
    || c == '\U{1680}' || '\U{2000}' <= c <= '\U{200a}' || c == '\U{2028}' || c == '\U{2029}' || c == '\U{202f}'
    || c == '\U{205f}' || c == '\U{3000}'
  }

  function Strip(s: string): (r: string)
    ensures r == s <==> (s == [] || (!IsSpace(s[0]) && !IsSpace(s[|s| - 1])))
    ensures |r| <= |s|
  {
    if s == [] then s
    else if IsSpace(s[0]) then Strip(s[1..])
    else if IsSpace(s[|s| - 1]) then Strip(s[..|s| - 1])
    else s
  }

  /** Stripping cuts white space off both ends, and nothing but white space. */
  lemma {:induction false} StripTrims(s: string) returns (i: nat, j: nat)
    ensures i <= j <= |s| && Strip(s) == s[i..j]
    ensures forall k | 0 <= k < i || j <= k < |s| :: IsSpace(s[k])
    ensures i < j ==> !IsSpace(s[i]) && !IsSpace(s[j - 1])
    decreases |s|
  {
    hide IsSpace;
    if s == [] {
      i, j := 0, 0;
    } else if IsSpace(s[0]) {
      i, j := StripTrims(s[1..]);
      assert s[1..][i..j] == s[i + 1..j + 1];
      assert forall k | 1 <= k < |s| :: s[k] == s[1..][k - 1];
      i, j := i + 1, j + 1;
    } else if IsSpace(s[|s| - 1]) {
      i, j := StripTrims(s[..|s| - 1]);
      assert s[..|s| - 1][i..j] == s[i..j];
    } else {
      i, j := 0, |s|;
    }
  }

  /** The row `append_event` adds: hashed with the source as given, stored with it stripped. */
  function NextEvent(d: Digest, log: seq<Event>, kind: EventType, payload: Payload, source: string, time: int,
                     id: int): Event {
    var previous := Before(log, |log|);
    Event(time, id, kind, payload, Strip(source), d.sum(Text(d, previous, kind, payload, time, source)), previous)
  }

  /** The row as it would read had the source been stored unchanged. */
  function AsHashed(e: Event, source: string): Event { e.(source := source) }

  /**
    An append leaves a verified log verified exactly when the new row is read last and its
    source carries no surrounding white space.
   */
  lemma AppendKeepsTheChainIff(d: Digest, log: seq<Event>, kind: EventType, payload: Payload,
                               source: string, time: int, id: int)
    requires Plain(d) && Verifies(d, log) && AllStorable(log) && InOrder(log) && WellFormed(Obj(payload))
    requires var e := NextEvent(d, log, kind, payload, source, time, id);
             NoCollision(d, Events(log) + {e, AsHashed(e, source)})
    ensures var e := NextEvent(d, log, kind, payload, source, time, id);
            Verifies(d, Insert(log, e))
            <==> ((forall i | 0 <= i < |log| :: Earlier(log[i], e)) && Strip(source) == source)
  {
    var e := NextEvent(d, log, kind, payload, source, time, id);
    hide Plain, Verifies, AllStorable, NoCollision, Strip;
    var p, after := Position(log, e), Insert(log, e);
    if p < |log| {
      FewerEvents(d, Events(log), Events(log) + {e, AsHashed(e, source)});
      MisplacedBreaks(d, log, e);
    } else {
      assert Insert(log, e) == log + [e];
      forall i | 0 <= i < |log| ensures Earlier(log[i], e) {
        if i < |log| - 1 { assert Earlier(log[i], log[|log| - 1]); }
      }
      LastVerifiesIff(d, log, kind, payload, source, time, id);
    }
  }

  lemma MisplacedBreaks(d: Digest, log: seq<Event>, e: Event)
    requires Plain(d) && Verifies(d, log) && AllStorable(log) && NoCollision(d, Events(log))
    requires e.previous == Before(log, |log|) && Position(log, e) < |log|
    ensures !Verifies(d, Insert(log, e))
  {
    var p, after := Position(log, e), Insert(log, e);
    assert after[p] == e && Before(after, p) == Before(log, p);
    if Before(log, p) == Before(log, |log|) {
      DigestsAreDistinct(d, log, p, |log|);
    }
    assert !Linked(d, after, p);
  }

  /** Appending at the end with a stripped source keeps the chain, whatever the digest is. */
  lemma LastVerifies(d: Digest, log: seq<Event>, kind: EventType, payload: Payload, source: string, time: int, id: int)
    requires Verifies(d, log) && Strip(source) == source
    ensures Verifies(d, log + [NextEvent(d, log, kind, payload, source, time, id)])
  {
    var e := NextEvent(d, log, kind, payload, source, time, id);
    var after := log + [e];
    forall i | 0 <= i < |after| ensures Linked(d, after, i) {
      assert Before(after, i) == Before(log, i);
      if i < |log| { assert Linked(d, log, i); }
    }
  }

  lemma LastVerifiesIff(d: Digest, log: seq<Event>, kind: EventType, payload: Payload,
                        source: string, time: int, id: int)
    requires Plain(d) && Verifies(d, log) && WellFormed(Obj(payload))
    requires var e := NextEvent(d, log, kind, payload, source, time, id);
             NoCollision(d, Events(log) + {e, AsHashed(e, source)})
    ensures var e := NextEvent(d, log, kind, payload, source, time, id);
            Verifies(d, log + [e]) <==> Strip(source) == source
  {
    var e := NextEvent(d, log, kind, payload, source, time, id);
    var after := log + [e];
    var n := |log|;
    assert after[n] == e && Before(after, n) == Before(log, n);
    if Strip(source) == source {
      LastVerifies(d, log, kind, payload, source, time, id);
    } else if Verifies(d, after) {
      assert Linked(d, after, n);
      PreviousIsPlain(d, after, n);
      TextDeterminesContent(d, e, AsHashed(e, source));
    }
  }
}
