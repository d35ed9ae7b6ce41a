/** The append-only, hash-chained audit log: `write`, `verify` and `canonical`.

    The hash function, the calendar, the printed tail of an event and the database's
    text forms of uuid and inet are parameters. No theorem assumes the hash is
    injective: each says "this holds, or here are two inputs with the same hash". */
module AuditChain {
  import opened Prelude
  import opened AuditJson

  /** Byte strings; a byte is a character below 256. */
  type Bytes = string

  const HASH_LEN := 32
  const NS_PER_US := 1_000
  const NS_PER_MS := 1_000_000
  /** Go's zero time (year 1), which `write` replaces by the current time. */
  const ZERO_TIME := -62_135_596_800 * 1_000_000_000
  const PREFIX := "{\"occurred_at\":\""

  /** `at` is an instant in nanoseconds. */
  datatype Event = Event(
    at: int, tenant: string,
    actorUser: string, actorRole: string, actorDevice: string, actorIP: string,
    service: string, action: string, resourceType: string, resourceId: string,
    before: Option<Json>, after: Option<Json>)

  /** An event with its time cut to milliseconds and its documents normalized. */
  datatype Canon = Canon(ms: int, fields: Event, before: Doc, after: Doc)

  datatype Civil = Civil(year: int, month: int, day: int, hour: int, minute: int, second: int)

  datatype Deps = Deps(
    hash: Bytes -> Bytes,
    civil: int -> Civil,
    tail: Canon -> Bytes,
    fl: Rounding,
    pgUuid: string -> Option<string>,
    pgInet: string -> Option<string>)

  ghost predicate HashOk(d: Deps) {
    forall b :: |d.hash(b)| == HASH_LEN
  }

  ghost predicate Collision(d: Deps, x: Bytes, y: Bytes) {
    x != y && d.hash(x) == d.hash(y)
  }

  // ─── Canonical bytes ─────────────────────────────────────────────────────────

  function Digit(n: int): char {
    (n % 10) as char + '0'
  }

  function Two(n: int): Bytes {
    [Digit(n / 10), Digit(n)]
  }

  /** Seconds part of an RFC 3339 timestamp (section 5.6). */
  function Stamp(c: Civil): Bytes {
    Two(c.year / 100) + Two(c.year) + "-" + Two(c.month) + "-" + Two(c.day) + "T"
    + Two(c.hour) + ":" + Two(c.minute) + ":" + Two(c.second)
  }

  function CanonOf(d: Deps, e: Event): Canon {
    Canon(e.at / NS_PER_MS, e.(at := 0, before := None, after := None),
          Normalize(d.fl, e.before), Normalize(d.fl, e.after))
  }

  /** json.Marshal: fails when the year does not have four digits. */
  function Marshal(d: Deps, c: Canon): Option<Bytes> {
    var t := d.civil(c.ms);
    if 0 <= t.year <= 9999 then Some(PREFIX + Stamp(t) + d.tail(c)) else None
  }

  function Canonical(d: Deps, e: Event): Option<Bytes> {
    Marshal(d, CanonOf(d, e))
  }

  /** The bytes `verify` hashes; it ignores the marshalling error and then hashes nothing. */
  function Checked(d: Deps, e: Event): Bytes {
    match Canonical(d, e) case Some(b) => b case None => []
  }

  /** Byte 0 is '{' and byte 32 is the ':' between minutes and seconds. */
  lemma MarshalShape(d: Deps, c: Canon)
    requires Marshal(d, c).Some?
    ensures var b := Marshal(d, c).value;
      |b| > HASH_LEN && b[0] == '{' && b[HASH_LEN] == ':'
  {
    var t := d.civil(c.ms);
    var s := Stamp(t);
    assert |PREFIX| == 16 && |s| == 19;
    assert s[16] == ':';
    assert (PREFIX + s + d.tail(c))[32] == s[16];
    assert (PREFIX + s + d.tail(c))[0] == PREFIX[0];
  }

  /** Which columns the hash covers: two events have one canonical form exactly when they agree in the millisecond, in
      every text column, and in their normalized documents. */
  lemma CanonCovers(d: Deps, e: Event, f: Event)
    ensures CanonOf(d, e) == CanonOf(d, f) <==>
      && e.at / 1_000_000 == f.at / 1_000_000
      && e.tenant == f.tenant
      && e.actorUser == f.actorUser && e.actorRole == f.actorRole && e.actorDevice == f.actorDevice && e.actorIP == f.actorIP
      && e.service == f.service && e.action == f.action
      && e.resourceType == f.resourceType && e.resourceId == f.resourceId
      && Normalize(d.fl, e.before) == Normalize(d.fl, f.before)
      && Normalize(d.fl, e.after) == Normalize(d.fl, f.after)
  {
    var a, b := CanonOf(d, e).fields, CanonOf(d, f).fields;
    assert a == b <==>
      e.(at := 0, before := None, after := None) == f.(at := 0, before := None, after := None);
  }

  /** The number that decimal digits spell. */
  function NumberOf(s: Bytes): int {
    if s == "" then 0 else 10 * NumberOf(s[..|s| - 1]) + (s[|s| - 1] as int - '0' as int)
  }

  lemma TwoReads(n: int)
    requires 0 <= n < 100
    ensures |Two(n)| == 2 && NumberOf(Two(n)) == n
  {
    var s := Two(n);
    assert s[..1] == [s[0]] && [s[0]][..0] == "";
    assert NumberOf([s[0]]) == n / 10;
  }

  lemma FourRead(n: int)
    requires 0 <= n < 10_000
    ensures NumberOf(Two(n / 100) + Two(n)) == n
  {
    var s := Two(n / 100) + Two(n);
    var h := n / 100;
    TwoReads(h);
    assert s[..3][..2] == Two(h) && s[..3] == s[..|s| - 1];
    assert NumberOf(s[..3]) == 10 * h + n / 10 % 10;
    DecimalParts(n, h, n / 10 % 10, n % 10);
  }

  lemma DecimalParts(n: int, h: int, t: int, u: int)
    requires h == n / 100 && t == n / 10 % 10 && u == n % 10
    ensures 10 * (10 * h + t) + u == n
  {
  }

  /** A time that a calendar can give. */
  predicate CivilOk(t: Civil) {
    && 0 <= t.month < 100 && 0 <= t.day < 100 && 0 <= t.hour < 100 && 0 <= t.minute < 100 && 0 <= t.second < 100
  }

  lemma StampReads(t: Civil)
    requires CivilOk(t) && 0 <= t.year < 10_000
    ensures var s := Stamp(t);
      && |s| == 19
      && NumberOf(s[..4]) == t.year && NumberOf(s[5..7]) == t.month && NumberOf(s[8..10]) == t.day
      && NumberOf(s[11..13]) == t.hour && NumberOf(s[14..16]) == t.minute && NumberOf(s[17..19]) == t.second
      && s[4] == s[7] == '-' && s[10] == 'T' && s[13] == s[16] == ':'
  {
    var s := Stamp(t);
    FourRead(t.year);
    TwoReads(t.month);
    TwoReads(t.day);
    TwoReads(t.hour);
    TwoReads(t.minute);
    TwoReads(t.second);
    PairAt(s, 5, t.month);
    PairAt(s, 8, t.day);
    PairAt(s, 11, t.hour);
    PairAt(s, 14, t.minute);
    PairAt(s, 17, t.second);
    assert s[0] == Digit(t.year / 100 / 10) && s[1] == Digit(t.year / 100) && s[2] == Digit(t.year / 10) && s[3] == Digit(t.year);
    assert s[..4] == Two(t.year / 100) + Two(t.year);
  }

  lemma PairAt(s: Bytes, i: nat, n: int)
    requires i + 2 <= |s| && s[i] == Digit(n / 10) && s[i + 1] == Digit(n)
    ensures s[i..i + 2] == Two(n)
  {
  }

  /** The canonical bytes exist exactly for years of four digits, and their timestamp then reads as the time of the event,
      year first, with the printed rest behind it. */
  lemma MarshalShows(d: Deps, c: Canon)
    requires CivilOk(d.civil(c.ms))
    ensures Marshal(d, c).Some? <==> 0 <= d.civil(c.ms).year < 10_000
    ensures Marshal(d, c).Some? ==>
      var b, t := Marshal(d, c).value, d.civil(c.ms);
      && |b| >= 35 && b[..16] == PREFIX && b[35..] == d.tail(c)
      && NumberOf(b[16..20]) == t.year && NumberOf(b[21..23]) == t.month && NumberOf(b[24..26]) == t.day
      && NumberOf(b[27..29]) == t.hour && NumberOf(b[30..32]) == t.minute && NumberOf(b[33..35]) == t.second
  {
    if Marshal(d, c).Some? {
      var b, t := Marshal(d, c).value, d.civil(c.ms);
      var s := Stamp(t);
      StampReads(t);
      assert |PREFIX| == 16 && b == PREFIX + s + d.tail(c);
      assert b[16..20] == s[..4] && b[21..23] == s[5..7] && b[24..26] == s[8..10];
      assert b[27..29] == s[11..13] && b[30..32] == s[14..16] && b[33..35] == s[17..19];
    }
  }

  // ─── Rows ────────────────────────────────────────────────────────────────────

  /** `event` holds the columns as the verifier's SELECT returns them. */
  datatype Row = Row(id: nat, event: Event, prev: Bytes, hash: Bytes)

  function PgText(f: string -> Option<string>, s: string): Option<string> {
    if s == "" then Some("") else f(s)
  }

  /** Store and read back: microseconds, typed columns, JSONB. None when a cast is rejected. */
  function AsRead(d: Deps, e: Event): Option<Event> {
    var u, ip := PgText(d.pgUuid, e.actorUser), PgText(d.pgInet, e.actorIP);
    if u.None? || ip.None? then None
    else Some(e.(at := e.at / NS_PER_US * NS_PER_US, actorUser := u.value, actorIP := ip.value,
                 before := ReadBack(e.before), after := ReadBack(e.after)))
  }

  function TenantRows(rows: seq<Row>, tenant: string): seq<Row> {
    if rows == [] then []
    else
      var n := |rows| - 1;
      TenantRows(rows[..n], tenant) + (if rows[n].event.tenant == tenant then [rows[n]] else [])
  }

  /** Hash of the last row, or nothing: the chain starts with a NULL prev_hash, written []. */
  function Head(rows: seq<Row>): Bytes {
    if rows == [] then [] else rows[|rows| - 1].hash
  }

  lemma NextHead(rows: seq<Row>, k: nat)
    requires k < |rows|
    ensures Head(rows[..k + 1]) == rows[k].hash
  {
    assert rows[..k + 1][k] == rows[k];
  }

  predicate LinkOk(d: Deps, rows: seq<Row>, i: nat)
    requires i < |rows|
  {
    && rows[i].prev == Head(rows[..i])
    && rows[i].hash == d.hash(Head(rows[..i]) + Checked(d, rows[i].event))
  }

  predicate ValidTo(d: Deps, rows: seq<Row>, k: nat)
    requires k <= |rows|
  {
    forall i :: 0 <= i < k ==> LinkOk(d, rows, i)
  }

  predicate Valid(d: Deps, rows: seq<Row>) {
    ValidTo(d, rows, |rows|)
  }

  // ─── Requests ────────────────────────────────────────────────────────────────

  datatype Request = Request(event: Event, now: int, clientIP: string)

  /** Fill in a missing time and address. */
  function Prepared(r: Request): Event {
    var e := if r.event.at == ZERO_TIME then r.event.(at := r.now) else r.event;
    if e.actorIP == "" then e.(actorIP := r.clientIP) else e
  }

  predicate Complete(e: Event) {
    e.tenant != "" && e.action != "" && e.service != "" && e.resourceType != ""
  }

  predicate Accepted(d: Deps, r: Request) {
    var e := Prepared(r);
    Complete(r.event) && Canonical(d, e).Some? && AsRead(d, e).Some?
  }

  function AfterWrite(d: Deps, rows: seq<Row>, r: Request): seq<Row> {
    if !Accepted(d, r) then rows
    else
      var e := Prepared(r);
      var prev := Head(TenantRows(rows, e.tenant));
      rows + [Row(|rows| + 1, AsRead(d, e).value, prev, d.hash(prev + Canonical(d, e).value))]
  }

  function AfterWrites(d: Deps, rs: seq<Request>): seq<Row> {
    if rs == [] then [] else AfterWrite(d, AfterWrites(d, rs[..|rs| - 1]), rs[|rs| - 1])
  }

  function Count(d: Deps, rs: seq<Request>, tenant: string): nat {
    if rs == [] then 0
    else
      var r := rs[|rs| - 1];
      Count(d, rs[..|rs| - 1], tenant) + (if Accepted(d, r) && r.event.tenant == tenant then 1 else 0)
  }

  // ─── The service ─────────────────────────────────────────────────────────────

  datatype WriteResult = BadRequest | Failed | Created(id: nat, hash: Bytes)
  datatype Verdict = TenantRequired | Intact(checked: nat) | Broken(brokenAt: nat, checked: nat)

  class AuditLog {
    const d: Deps
    var rows: seq<Row>

    constructor (d: Deps)
      ensures this.d == d && rows == []
    {
      this.d := d;
      rows := [];
    }

    method Write(r: Request) returns (res: WriteResult)
      modifies this
      ensures rows == AfterWrite(d, old(rows), r)
      ensures res.Created? <==> Accepted(d, r)
      ensures res.BadRequest? <==>
        r.event.tenant == "" || r.event.action == "" || r.event.service == "" || r.event.resourceType == ""
      ensures res.Created? ==> res.id == rows[|rows| - 1].id && res.hash == Head(TenantRows(rows, r.event.tenant))
    {
      var ev := r.event;
      if ev.tenant == "" || ev.action == "" || ev.service == "" || ev.resourceType == "" {
        return BadRequest;
      }
      if ev.at == ZERO_TIME {
        ev := ev.(at := r.now);
      }
      if ev.actorIP == "" {
        ev := ev.(actorIP := r.clientIP);
      }
      assert ev == Prepared(r) && Complete(r.event);
      var prev := Head(TenantRows(rows, ev.tenant));
      var canon := Canonical(d, ev);
      if canon.None? {
        return Failed;
      }
      var hash := d.hash(prev + canon.value);
      var stored := AsRead(d, ev);
      if stored.None? {
        return Failed;
      }
      var row := Row(|rows| + 1, stored.value, prev, hash);
      NewHead(rows, row);
      rows := rows + [row];
      res := Created(row.id, hash);
    }

    /** The verdict is exact: `checked` rows link up and the next one, if any, does not. */
    method Verify(tenant: string) returns (v: Verdict)
      ensures v.TenantRequired? <==> tenant == ""
      ensures v.Intact? ==> v.checked == |TenantRows(rows, tenant)| && Valid(d, TenantRows(rows, tenant))
      ensures v.Broken? ==>
        var rs := TenantRows(rows, tenant);
        v.checked < |rs| && ValidTo(d, rs, v.checked) && !LinkOk(d, rs, v.checked) && v.brokenAt == rs[v.checked].id
    {
      if tenant == "" {
        return TenantRequired;
      }
      var rs := TenantRows(rows, tenant);
      var checked := 0;
      var prev := [];
      while checked < |rs|
        invariant checked <= |rs|
        invariant ValidTo(d, rs, checked)
        invariant prev == Head(rs[..checked])
      {
        var row := rs[checked];
        var got := d.hash(prev + Checked(d, row.event));
        if got != row.hash || row.prev != prev {
          assert !LinkOk(d, rs, checked);
          return Broken(row.id, checked);
        }
        assert LinkOk(d, rs, checked);
        NextHead(rs, checked);
        prev := row.hash;
        checked := checked + 1;
      }
      v := Intact(checked);
    }
  }

  // ─── Write, then verify ──────────────────────────────────────────────────────

  /** What a client can check before sending: uuid, address and documents already in database form. */
  predicate Stable(d: Deps, e: Event) {
    && PgText(d.pgUuid, e.actorUser) == Some(e.actorUser)
    && PgText(d.pgInet, e.actorIP) == Some(e.actorIP)
    && StableDoc(d.fl, e.before) && StableDoc(d.fl, e.after)
  }

  /** Cutting nanoseconds to micro- and then to milliseconds is cutting to milliseconds. */
  lemma TruncationComposes(at: int)
    ensures at / NS_PER_US * NS_PER_US / NS_PER_MS == at / NS_PER_MS
  {
    var us, ms := at / NS_PER_US, at / NS_PER_MS;
    assert ms * NS_PER_MS <= us * NS_PER_US < (ms + 1) * NS_PER_MS;
  }

  lemma ReadBackCanon(d: Deps, e: Event)
    requires AsRead(d, e).Some?
    ensures CanonOf(d, AsRead(d, e).value) == CanonOf(d, e) <==> Stable(d, e)
  {
    TruncationComposes(e.at);
    DocSurvives(d.fl, e.before);
    DocSurvives(d.fl, e.after);
    var a, b := CanonOf(d, AsRead(d, e).value), CanonOf(d, e);
    assert a.fields == b.fields <==> a.fields.actorUser == b.fields.actorUser && a.fields.actorIP == b.fields.actorIP;
  }

  lemma TenantAppend(rows: seq<Row>, row: Row, tenant: string)
    ensures TenantRows(rows + [row], tenant)
         == TenantRows(rows, tenant) + (if row.event.tenant == tenant then [row] else [])
  {
    assert (rows + [row])[..|rows|] == rows;
  }

  lemma NewHead(rows: seq<Row>, row: Row)
    ensures Head(TenantRows(rows + [row], row.event.tenant)) == row.hash
  {
    TenantAppend(rows, row, row.event.tenant);
  }

  /** Appending leaves the verdict on the rows before unchanged. */
  lemma LinkPrefix(d: Deps, rows: seq<Row>, row: Row, i: nat)
    requires i < |rows|
    ensures LinkOk(d, rows + [row], i) <==> LinkOk(d, rows, i)
  {
    assert (rows + [row])[..i] == rows[..i];
  }

  lemma ValidAppend(d: Deps, rows: seq<Row>, row: Row)
    ensures Valid(d, rows + [row]) <==>
      Valid(d, rows) && row.prev == Head(rows) && row.hash == d.hash(Head(rows) + Checked(d, row.event))
  {
    var all := rows + [row];
    forall i | 0 <= i < |rows| ensures LinkOk(d, all, i) <==> LinkOk(d, rows, i) { LinkPrefix(d, rows, row, i); }
    assert all[..|rows|] == rows;
    assert LinkOk(d, all, |rows|) <==> row.prev == Head(rows) && row.hash == d.hash(Head(rows) + Checked(d, row.event));
    if Valid(d, all) {
      assert LinkOk(d, all, |rows|);
      forall i | 0 <= i < |rows| ensures LinkOk(d, rows, i) { assert LinkOk(d, all, i); }
    }
  }

  /** The text the database keeps of a typed column: empty stays empty, the rest is the type's own text form. */
  predicate KeptAs(f: string -> Option<string>, sent: string, kept: string) {
    if sent == "" then kept == "" else f(sent) == Some(kept)
  }

  predicate DocKeptAs(sent: Option<Json>, kept: Option<Json>) {
    kept == if sent.None? || sent.value.Null? then None else Some(Stored(sent.value))
  }

  /** What a time is stored as, with a missing one filled in. */
  lemma StoresTime(d: Deps, r: Request)
    requires Accepted(d, r)
    ensures var at, kept := (if r.event.at == -62_135_596_800 * 1_000_000_000 then r.now else r.event.at),
                            AsRead(d, Prepared(r)).value.at;
      kept % 1_000 == 0 && at - 1_000 < kept <= at
  {
    CutToMicros(Prepared(r).at, AsRead(d, Prepared(r)).value.at);
  }

  lemma CutToMicros(at: int, kept: int)
    requires kept == at / 1_000 * 1_000
    ensures kept % 1_000 == 0 && at - 1_000 < kept <= at
  {
  }

  lemma StoresTyped(d: Deps, r: Request)
    requires Accepted(d, r)
    ensures var e, x := AsRead(d, Prepared(r)).value, r.event;
      && KeptAs(d.pgUuid, x.actorUser, e.actorUser)
      && KeptAs(d.pgInet, if x.actorIP == "" then r.clientIP else x.actorIP, e.actorIP)
      && DocKeptAs(x.before, e.before) && DocKeptAs(x.after, e.after)
  {
  }

  lemma StoresText(d: Deps, r: Request)
    requires Accepted(d, r)
    ensures var e, x := AsRead(d, Prepared(r)).value, r.event;
      && e.tenant == x.tenant && e.service == x.service && e.action == x.action && e.resourceType == x.resourceType
      && e.tenant != "" && e.service != "" && e.action != "" && e.resourceType != ""
      && e.resourceId == x.resourceId && e.actorRole == x.actorRole && e.actorDevice == x.actorDevice
  {
  }

  /** What an accepted write leaves: one more row with the next number, holding the columns that were sent, the time cut to
      microseconds, a missing time or address filled in, and none of the four required columns empty. */
  lemma WriteStores(d: Deps, rows: seq<Row>, r: Request)
    requires Accepted(d, r)
    ensures var t := AfterWrite(d, rows, r);
      && |t| == |rows| + 1 && t[..|rows|] == rows && t[|rows|].id == |rows| + 1
      && var e, x := t[|rows|].event, r.event;
      && e.tenant == x.tenant && e.service == x.service && e.action == x.action && e.resourceType == x.resourceType
      && e.tenant != "" && e.service != "" && e.action != "" && e.resourceType != ""
      && e.resourceId == x.resourceId && e.actorRole == x.actorRole && e.actorDevice == x.actorDevice
      && KeptAs(d.pgUuid, x.actorUser, e.actorUser)
      && KeptAs(d.pgInet, if x.actorIP == "" then r.clientIP else x.actorIP, e.actorIP)
      && (var at := if x.at == -62_135_596_800 * 1_000_000_000 then r.now else x.at;
          e.at % 1_000 == 0 && at - 1_000 < e.at <= at)
      && DocKeptAs(x.before, e.before) && DocKeptAs(x.after, e.after)
  {
    assert AfterWrite(d, rows, r)[|rows|].event == AsRead(d, Prepared(r)).value;
    StoresTime(d, r);
    StoresTyped(d, r);
    StoresText(d, r);
  }

  /** A write is accepted unless a required column is missing, the database rejects the user or the address, or the year
      does not have four digits; otherwise nothing changes. */
  lemma AcceptedExactly(d: Deps, rows: seq<Row>, r: Request)
    ensures var ip := if r.event.actorIP == "" then r.clientIP else r.event.actorIP;
      var at := if r.event.at == -62_135_596_800 * 1_000_000_000 then r.now else r.event.at;
      Accepted(d, r) <==>
        && r.event.tenant != "" && r.event.action != "" && r.event.service != "" && r.event.resourceType != ""
        && (r.event.actorUser != "" ==> d.pgUuid(r.event.actorUser).Some?) && (ip != "" ==> d.pgInet(ip).Some?)
        && 0 <= d.civil(at / 1_000_000).year <= 9999
    ensures !Accepted(d, r) ==> AfterWrite(d, rows, r) == rows
  {
    assert CanonOf(d, Prepared(r)).ms == Prepared(r).at / NS_PER_MS;
  }

  /** One accepted write extends its own tenant's chain, validly exactly when what it stored hashes like what it sent. */
  lemma WriteExtends(d: Deps, rows: seq<Row>, r: Request, tenant: string)
    requires Accepted(d, r)
    ensures var e, old', new' := Prepared(r), TenantRows(rows, tenant), TenantRows(AfterWrite(d, rows, r), tenant);
      if tenant != r.event.tenant then new' == old'
      else
        && |new'| == |old'| + 1
        && (Valid(d, new') <==>
            (Valid(d, old') &&
             d.hash(Head(old') + Canonical(d, e).value) == d.hash(Head(old') + Checked(d, AsRead(d, e).value))))
  {
    var e, prev := Prepared(r), Head(TenantRows(rows, r.event.tenant));
    var row := Row(|rows| + 1, AsRead(d, e).value, prev, d.hash(prev + Canonical(d, e).value));
    TenantAppend(rows, row, tenant);
    ValidAppend(d, TenantRows(rows, tenant), row);
  }

  /** After any writes, interleaved over any tenants, every tenant's chain verifies with one row per accepted write. */
  lemma {:induction false} WriteThenVerify(d: Deps, rs: seq<Request>, tenant: string)
    requires forall r :: r in rs && Accepted(d, r) ==> Stable(d, Prepared(r))
    ensures Valid(d, TenantRows(AfterWrites(d, rs), tenant))
    ensures |TenantRows(AfterWrites(d, rs), tenant)| == Count(d, rs, tenant)
  {
    if rs != [] {
      var r, rest := rs[|rs| - 1], rs[..|rs| - 1];
      WriteThenVerify(d, rest, tenant);
      if Accepted(d, r) {
        assert r in rs;
        WriteExtends(d, AfterWrites(d, rest), r, tenant);
        ReadBackCanon(d, Prepared(r));
      }
    }
  }

  /** What JSON promises of an event and its read-back: if they print alike, they have the same canonical form. */
  predicate PrintsApart(d: Deps, e: Event) {
    AsRead(d, e).Some? && Canonical(d, e).Some? && Canonical(d, AsRead(d, e).value) == Canonical(d, e)
    ==> CanonOf(d, AsRead(d, e).value) == CanonOf(d, e)
  }

  lemma SameBytesStable(d: Deps, e: Event, prev: Bytes)
    requires PrintsApart(d, e) && Canonical(d, e).Some? && AsRead(d, e).Some?
    requires prev + Canonical(d, e).value == prev + Checked(d, AsRead(d, e).value)
    ensures Stable(d, e)
  {
    var sent, read := Canonical(d, e).value, Checked(d, AsRead(d, e).value);
    assert sent == (prev + sent)[|prev|..] == (prev + read)[|prev|..] == read;
    MarshalShape(d, CanonOf(d, e));
    assert Canonical(d, AsRead(d, e).value) == Some(sent);
    ReadBackCanon(d, e);
  }

  /** Conversely, if every tenant's chain verifies then every accepted write was stable, or the hash collides. */
  lemma {:induction false} VerifyMeansStable(d: Deps, rs: seq<Request>) returns (x: Bytes, y: Bytes)
    requires forall r :: r in rs && Accepted(d, r) ==> PrintsApart(d, Prepared(r))
    requires forall t :: Valid(d, TenantRows(AfterWrites(d, rs), t))
    ensures Collision(d, x, y) || forall r :: r in rs && Accepted(d, r) ==> Stable(d, Prepared(r))
  {
    x, y := [], [];
    if rs != [] {
      var r, rest := rs[|rs| - 1], rs[..|rs| - 1];
      var rows := AfterWrites(d, rest);
      if Accepted(d, r) {
        var e := Prepared(r);
        assert r in rs;
        WriteExtends(d, rows, r, e.tenant);
        var prev, read := Head(TenantRows(rows, e.tenant)), AsRead(d, e).value;
        assert Valid(d, TenantRows(AfterWrites(d, rs), e.tenant));
        x, y := prev + Canonical(d, e).value, prev + Checked(d, read);
        if x != y { return; }
        SameBytesStable(d, e, prev);
      }
      forall t ensures Valid(d, TenantRows(rows, t)) {
        assert Valid(d, TenantRows(AfterWrites(d, rs), t));
        if Accepted(d, r) { WriteExtends(d, rows, r, t); }
      }
      x, y := VerifyMeansStable(d, rest);
    }
  }

  ghost predicate AllVerify(d: Deps, rs: seq<Request>) {
    forall t :: Valid(d, TenantRows(AfterWrites(d, rs), t))
  }

  predicate AllStable(d: Deps, rs: seq<Request>) {
    forall r :: r in rs && Accepted(d, r) ==> Stable(d, Prepared(r))
  }

  /** Every tenant's chain verifies after any writes if and only if every accepted event was stable, or the hash
      collides. */
  lemma VerifiesExactly(d: Deps, rs: seq<Request>) returns (x: Bytes, y: Bytes)
    requires forall r :: r in rs && Accepted(d, r) ==> PrintsApart(d, Prepared(r))
    ensures Collision(d, x, y) || (AllVerify(d, rs) <==> AllStable(d, rs))
  {
    x, y := [], [];
    if AllVerify(d, rs) {
      x, y := VerifyMeansStable(d, rs);
    }
    if AllStable(d, rs) {
      forall t ensures Valid(d, TenantRows(AfterWrites(d, rs), t)) { WriteThenVerify(d, rs, t); }
    }
  }

  // ─── What an accepted chain proves ───────────────────────────────────────────

  /** A first row and a later row never hash the same bytes: byte 32 is ':' in one and '{' in the other. */
  lemma DomainSeparation(d: Deps, e: Event, prev: Bytes, e': Event)
    requires |prev| == HASH_LEN
    ensures Checked(d, e) != prev + Checked(d, e')
  {
    if Canonical(d, e).Some? { MarshalShape(d, CanonOf(d, e)); }
    if Canonical(d, e').Some? {
      MarshalShape(d, CanonOf(d, e'));
      assert (prev + Checked(d, e'))[HASH_LEN] == '{';
    }
  }

  predicate SameHistory(d: Deps, a: seq<Row>, b: seq<Row>) {
    |a| == |b| && forall i :: 0 <= i < |a| ==>
      a[i].hash == b[i].hash && a[i].prev == b[i].prev && Checked(d, a[i].event) == Checked(d, b[i].event)
  }

  lemma ValidPrefix(d: Deps, rows: seq<Row>, k: nat)
    requires k <= |rows| && Valid(d, rows)
    ensures Valid(d, rows[..k])
  {
    forall i | 0 <= i < k ensures LinkOk(d, rows[..k], i) {
      assert rows[..k][..i] == rows[..i];
      assert LinkOk(d, rows, i);
    }
  }

  /** Equal heads: either a collision or equal previous heads and equal bytes in the last row. */
  lemma EqualLast(d: Deps, a: seq<Row>, b: seq<Row>) returns (x: Bytes, y: Bytes)
    requires HashOk(d) && Valid(d, a) && Valid(d, b)
    requires a != [] && b != [] && Head(a) == Head(b)
    ensures Collision(d, x, y) ||
      ((|a| == 1 <==> |b| == 1) && a[|a| - 1].prev == b[|b| - 1].prev == Head(a[..|a| - 1]) == Head(b[..|b| - 1]) &&
       Checked(d, a[|a| - 1].event) == Checked(d, b[|b| - 1].event))
  {
    var m, n := |a| - 1, |b| - 1;
    var pa, pb := Head(a[..m]), Head(b[..n]);
    var ca, cb := Checked(d, a[m].event), Checked(d, b[n].event);
    assert LinkOk(d, a, m) && LinkOk(d, b, n);
    x, y := pa + ca, pb + cb;
    if x != y { return; }
    ChainHead(d, a, m);
    ChainHead(d, b, n);
    if m == 0 && n > 0 { assert x == ca; DomainSeparation(d, a[m].event, pb, b[n].event); }
    if n == 0 && m > 0 { assert y == cb; DomainSeparation(d, b[n].event, pa, a[m].event); }
    assert |pa| == |pb|;
    assert pa == x[..|pa|] && pb == y[..|pb|];
    assert ca == x[|pa|..] && cb == y[|pb|..];
  }

  /** Equal heads mean equal histories, whatever the two lengths, or here is a collision. */
  lemma {:induction false} EqualHeads(d: Deps, a: seq<Row>, b: seq<Row>) returns (x: Bytes, y: Bytes)
    requires HashOk(d) && Valid(d, a) && Valid(d, b)
    requires a != [] && b != [] && Head(a) == Head(b)
    ensures Collision(d, x, y) || SameHistory(d, a, b)
    decreases |a|
  {
    var m, n := |a| - 1, |b| - 1;
    x, y := EqualLast(d, a, b);
    if !Collision(d, x, y) && m > 0 {
      ValidPrefix(d, a, m);
      ValidPrefix(d, b, n);
      x, y := EqualHeads(d, a[..m], b[..n]);
      if SameHistory(d, a[..m], b[..n]) { ExtendHistory(d, a, b); }
    }
  }

  lemma ExtendHistory(d: Deps, a: seq<Row>, b: seq<Row>)
    requires a != [] && b != [] && SameHistory(d, a[..|a| - 1], b[..|b| - 1])
    requires Head(a) == Head(b) && a[|a| - 1].prev == b[|b| - 1].prev
    requires Checked(d, a[|a| - 1].event) == Checked(d, b[|b| - 1].event)
    ensures SameHistory(d, a, b)
  {
    forall i | 0 <= i < |a| - 1
      ensures a[i].hash == b[i].hash && a[i].prev == b[i].prev && Checked(d, a[i].event) == Checked(d, b[i].event)
    {
      assert a[..|a| - 1][i] == a[i] && b[..|b| - 1][i] == b[i];
    }
  }

  lemma ChainHead(d: Deps, rows: seq<Row>, k: nat)
    requires HashOk(d) && k <= |rows| && Valid(d, rows)
    ensures |Head(rows[..k])| == if k == 0 then 0 else HASH_LEN
  {
    if k > 0 {
      assert LinkOk(d, rows, k - 1);
      assert rows[..k][k - 1] == rows[k - 1];
    }
  }

  lemma RelabelledRow(d: Deps, rows: seq<Row>, k: nat, forged: Event) returns (x: Bytes, y: Bytes)
    requires Valid(d, rows) && k < |rows|
    ensures var rows' := rows[k := rows[k].(event := forged)];
      && ValidTo(d, rows', k)
      && (Checked(d, forged) == Checked(d, rows[k].event) ==> Valid(d, rows'))
      && (Checked(d, forged) != Checked(d, rows[k].event) ==> !LinkOk(d, rows', k) || Collision(d, x, y))
  {
    var rows' := rows[k := rows[k].(event := forged)];
    var prev := Head(rows[..k]);
    x, y := prev + Checked(d, rows[k].event), prev + Checked(d, forged);
    assert x[|prev|..] == Checked(d, rows[k].event) && y[|prev|..] == Checked(d, forged);
    forall i | 0 <= i < |rows| ensures i != k ==> (LinkOk(d, rows', i) <==> LinkOk(d, rows, i)) {
      SameHeads(rows, k, forged, i);
    }
    SameHeads(rows, k, forged, k);
    assert LinkOk(d, rows, k);
  }

  lemma SameHeads(rows: seq<Row>, k: nat, forged: Event, i: nat)
    requires k < |rows| && i < |rows|
    ensures Head(rows[k := rows[k].(event := forged)][..i]) == Head(rows[..i])
  {
  }

  /** Changing what one row says, and nothing else. If the change is in a hashed column - another millisecond, tenant, actor,
      service, action, resource or document - and the printer tells the two forms apart, it is reported at that row, or the
      hash collides; if no hashed column differs, the chain verifies as before. */
  lemma TamperedRow(d: Deps, rows: seq<Row>, k: nat, forged: Event) returns (x: Bytes, y: Bytes)
    requires Valid(d, rows) && k < |rows|
    requires CanonOf(d, forged) != CanonOf(d, rows[k].event) ==> Checked(d, forged) != Checked(d, rows[k].event)
    ensures var e, rows' := rows[k].event, rows[k := rows[k].(event := forged)];
      var differs :=
        || forged.at / 1_000_000 != e.at / 1_000_000
        || forged.tenant != e.tenant
        || forged.actorUser != e.actorUser || forged.actorRole != e.actorRole
        || forged.actorDevice != e.actorDevice || forged.actorIP != e.actorIP
        || forged.service != e.service || forged.action != e.action
        || forged.resourceType != e.resourceType || forged.resourceId != e.resourceId
        || Normalize(d.fl, forged.before) != Normalize(d.fl, e.before)
        || Normalize(d.fl, forged.after) != Normalize(d.fl, e.after);
      && ValidTo(d, rows', k)
      && (differs ==> !LinkOk(d, rows', k) || Collision(d, x, y))
      && (!differs ==> Valid(d, rows'))
  {
    CanonCovers(d, forged, rows[k].event);
    x, y := RelabelledRow(d, rows, k, forged);
  }

  /** Two chain positions never carry the same hash, or the hash collides. */
  lemma NoRepeatedHead(d: Deps, rows: seq<Row>, i: nat, j: nat) returns (x: Bytes, y: Bytes)
    requires HashOk(d) && Valid(d, rows) && i < j < |rows|
    requires rows[i].hash == rows[j].hash
    ensures Collision(d, x, y)
  {
    ValidPrefix(d, rows, i + 1);
    ValidPrefix(d, rows, j + 1);
    x, y := EqualHeads(d, rows[..i + 1], rows[..j + 1]);
  }

  lemma CutLink(d: Deps, rows: seq<Row>, k: nat)
    requires HashOk(d) && Valid(d, rows) && k < |rows| - 1 && LinkOk(d, rows[..k] + rows[k + 1..], k)
    ensures k > 0 && rows[k - 1].hash == rows[k].hash
  {
    var cut := rows[..k] + rows[k + 1..];
    assert cut[k] == rows[k + 1] && cut[..k] == rows[..k];
    assert LinkOk(d, rows, k + 1) && rows[..k + 1][k] == rows[k];
    assert rows[k].hash == Head(rows[..k]);
    ChainHead(d, rows, k + 1);
    ChainHead(d, rows, k);
  }

  /** Removing one row is reported at its successor; only the newest row can go unnoticed. */
  lemma RemovedRow(d: Deps, rows: seq<Row>, k: nat) returns (x: Bytes, y: Bytes)
    requires HashOk(d) && Valid(d, rows) && k < |rows|
    ensures var cut := rows[..k] + rows[k + 1..];
      ValidTo(d, cut, k) && (Collision(d, x, y) || (k < |rows| - 1 <==> k < |cut| && !LinkOk(d, cut, k)))
  {
    x, y := [], [];
    var cut := rows[..k] + rows[k + 1..];
    forall i | 0 <= i < k ensures LinkOk(d, cut, i) {
      assert cut[..i] == rows[..i];
      assert LinkOk(d, rows, i);
    }
    if k < |rows| - 1 && LinkOk(d, cut, k) {
      CutLink(d, rows, k);
      x, y := NoRepeatedHead(d, rows, k - 1, k);
    }
  }
}
