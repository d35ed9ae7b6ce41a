/** The two JSON columns of an audit event.

    A document reaches the hash twice: once as the client sent it and once as Postgres
    prints it back from JSONB. `Normalize` is what the service hashes in both cases,
    `Stored` is the JSONB round trip, and `DocSurvives` says exactly which documents
    come through it with the same normal form. */
module AuditJson {
  import opened Prelude

  /** A number as written: sign, all digits, how many follow the point, and the exponent part if there is one. */
  datatype Literal = Literal(neg: bool, digits: nat, frac: nat, exp: Option<int>)

  datatype Json =
    | Null
    | Bool(b: bool)
    | Number(n: Literal)
    | Text(s: string)
    | Array(items: seq<Json>)
    | Object(members: seq<Member>)

  datatype Member = Member(key: string, value: Json)

  /** What Go's decoder makes of a document. A float keeps its sign even when it is zero. */
  datatype Value =
    | VNull
    | VBool(b: bool)
    | VNumber(neg: bool, magnitude: real)
    | VText(s: string)
    | VArray(items: seq<Value>)
    | VObject(fields: map<string, Value>)

  /** The form that enters the hash. */
  datatype Doc = Absent | Normalized(value: Value) | Verbatim(json: Json)

  /** Rounding of an exact magnitude to a float; None when it overflows. */
  type Rounding = real -> Option<real>

  function Pow10(k: nat): (p: nat)
    ensures p > 0
  {
    if k == 0 then 1 else 10 * Pow10(k - 1)
  }

  function Scale(l: Literal): int {
    (if l.exp.Some? then l.exp.value else 0) - l.frac
  }

  function Magnitude(l: Literal): real {
    var e := Scale(l);
    if e >= 0 then (l.digits * Pow10(e)) as real else l.digits as real / Pow10(-e) as real
  }

  /** What a literal is worth: its digits as they stand, a tenth for every digit behind the point, ten times as much for
      every step of the exponent, whatever its sign. */
  lemma MagnitudeMeans(l: Literal, e: int)
    ensures Magnitude(Literal(l.neg, l.digits, 0, None)) == l.digits as real
    ensures 10.0 * Magnitude(l.(frac := l.frac + 1)) == Magnitude(l)
    ensures Magnitude(l.(exp := Some(e + 1))) == 10.0 * Magnitude(l.(exp := Some(e)))
    ensures Magnitude(l.(exp := Some(0))) == Magnitude(l.(exp := None))
  {
    assert Pow10(0) == 1;
    Shifted(l.digits, Scale(l));
    Shifted(l.digits, e + 1 - l.frac);
  }

  function Worth(digits: nat, e: int): real {
    if e >= 0 then (digits * Pow10(e)) as real else digits as real / Pow10(-e) as real
  }

  lemma Shifted(digits: nat, e: int)
    ensures Worth(digits, e) == 10.0 * Worth(digits, e - 1)
  {
    if e > 0 {
      WholeShift(digits, Pow10(e - 1), Pow10(e));
    } else {
      var q, r := Pow10(-e), Pow10(1 - e);
      assert r == 10 * q && Pow10(0) == 1;
      assert Worth(digits, e) == digits as real / q as real;
      Tenth(digits as real, q as real, r as real, Worth(digits, e), Worth(digits, e - 1));
    }
  }

  lemma WholeShift(digits: nat, p: nat, q: nat)
    requires q == 10 * p
    ensures (digits * q) as real == 10.0 * (digits * p) as real
  {
    assert digits * q == 10 * (digits * p);
  }

  lemma Tenth(d: real, q: real, r: real, x: real, y: real)
    requires q > 0.0 && r == 10.0 * q && x == d / q && y == d / r
    ensures x == 10.0 * y
  {
    assert x * q == d && y * r == d;
    assert y * r == 10.0 * y * q;
    assert (x - 10.0 * y) * q == 0.0;
  }

  // ─── Go: json.Unmarshal into any ─────────────────────────────────────────────

  predicate InRange(fl: Rounding, j: Json)
    decreases j, 1
  {
    match j
    case Number(l) => fl(Magnitude(l)).Some?
    case Array(items) => InRangeItems(fl, items)
    case Object(ms) => InRangeMembers(fl, ms)
    case _ => true
  }

  predicate InRangeItems(fl: Rounding, items: seq<Json>)
    decreases items, 0
  {
    items == [] || (InRange(fl, items[0]) && InRangeItems(fl, items[1..]))
  }

  predicate InRangeMembers(fl: Rounding, ms: seq<Member>)
    decreases ms, 0
  {
    ms == [] || (InRange(fl, ms[0].value) && InRangeMembers(fl, ms[1..]))
  }

  function GoValue(fl: Rounding, j: Json): Value
    decreases j, 1
  {
    match j
    case Null => VNull
    case Bool(b) => VBool(b)
    case Number(l) => VNumber(l.neg, match fl(Magnitude(l)) case Some(m) => m case None => 0.0)
    case Text(s) => VText(s)
    case Array(items) => VArray(GoItems(fl, items))
    case Object(ms) => VObject(GoFields(fl, ms))
  }

  function GoItems(fl: Rounding, items: seq<Json>): seq<Value>
    decreases items, 0
  {
    if items == [] then [] else [GoValue(fl, items[0])] + GoItems(fl, items[1..])
  }

  /** A repeated key keeps its last value. */
  function GoFields(fl: Rounding, ms: seq<Member>): map<string, Value>
    decreases ms, 0
  {
    if ms == [] then map[] else map[ms[0].key := GoValue(fl, ms[0].value)] + GoFields(fl, ms[1..])
  }

  // ─── What decoding tells apart ───────────────────────────────────────────────

  predicate IsLast(ms: seq<Member>, i: int) {
    0 <= i < |ms| && forall j :: i < j < |ms| ==> ms[j].key != ms[i].key
  }

  predicate Names(ms: seq<Member>, key: string) {
    exists i :: 0 <= i < |ms| && ms[i].key == key
  }

  /** Two documents mean the same: alike but for how numbers are written, the order of members, and members that a later
      one with the same key shadows. */
  ghost predicate Same(fl: Rounding, a: Json, b: Json)
    decreases a
  {
    match a
    case Null => b.Null?
    case Bool(x) => b == Bool(x)
    case Number(l) => b.Number? && l.neg == b.n.neg && fl(Magnitude(l)) == fl(Magnitude(b.n))
    case Text(x) => b == Text(x)
    case Array(xs) => b.Array? && |xs| == |b.items| && forall i :: 0 <= i < |xs| ==> Same(fl, xs[i], b.items[i])
    case Object(ms) =>
      && b.Object?
      && (forall key :: Names(ms, key) <==> Names(b.members, key))
      && forall i, j :: IsLast(ms, i) && IsLast(b.members, j) && ms[i].key == b.members[j].key ==>
           Same(fl, ms[i].value, b.members[j].value)
  }

  lemma {:induction false} ItemsAt(fl: Rounding, items: seq<Json>)
    ensures |GoItems(fl, items)| == |items|
    ensures forall i :: 0 <= i < |items| ==> GoItems(fl, items)[i] == GoValue(fl, items[i])
  {
    if items != [] { ItemsAt(fl, items[1..]); }
  }

  lemma {:induction false} InRangeAt(fl: Rounding, items: seq<Json>, i: nat)
    requires InRangeItems(fl, items) && i < |items|
    ensures InRange(fl, items[i])
  {
    if i > 0 { InRangeAt(fl, items[1..], i - 1); }
  }

  lemma {:induction false} InRangeMember(fl: Rounding, ms: seq<Member>, i: nat)
    requires InRangeMembers(fl, ms) && i < |ms|
    ensures InRange(fl, ms[i].value)
  {
    if i > 0 { InRangeMember(fl, ms[1..], i - 1); }
  }

  lemma {:induction false} FieldsName(fl: Rounding, ms: seq<Member>, key: string)
    ensures key in GoFields(fl, ms) <==> Names(ms, key)
  {
    if ms != [] {
      FieldsName(fl, ms[1..], key);
      if Names(ms[1..], key) {
        var i :| 0 <= i < |ms[1..]| && ms[1..][i].key == key;
        assert ms[i + 1].key == key;
      }
      if Names(ms, key) && ms[0].key != key {
        var i :| 0 <= i < |ms| && ms[i].key == key;
        assert ms[1..][i - 1].key == key;
      }
    }
  }

  lemma {:induction false} FieldIsLast(fl: Rounding, ms: seq<Member>, i: int)
    requires IsLast(ms, i)
    ensures ms[i].key in GoFields(fl, ms) && GoFields(fl, ms)[ms[i].key] == GoValue(fl, ms[i].value)
  {
    if i == 0 {
      FieldsName(fl, ms[1..], ms[0].key);
    } else {
      assert IsLast(ms[1..], i - 1);
      FieldIsLast(fl, ms[1..], i - 1);
    }
  }

  lemma {:induction false} LastNamed(ms: seq<Member>, key: string) returns (i: nat)
    requires Names(ms, key)
    ensures IsLast(ms, i) && ms[i].key == key
  {
    var n := |ms| - 1;
    if ms[n].key == key {
      i := n;
    } else {
      var j :| 0 <= j < |ms| && ms[j].key == key;
      assert ms[..n][j].key == key;
      i := LastNamed(ms[..n], key);
      assert forall k :: i < k < n ==> ms[..n][k] == ms[k];
    }
  }

  /** Go's decoder tells two documents apart exactly when they do not mean the same. */
  lemma {:induction false} GoValueMeans(fl: Rounding, a: Json, b: Json)
    requires InRange(fl, a) && InRange(fl, b)
    ensures GoValue(fl, a) == GoValue(fl, b) <==> Same(fl, a, b)
    decreases a
  {
    match a
    case Array(xs) =>
      if b.Array? && |xs| == |b.items| {
        ItemsMean(fl, xs, b.items);
      } else if b.Array? {
        ItemsAt(fl, xs);
        ItemsAt(fl, b.items);
      }
    case Object(ms) => if b.Object? { FieldsMean(fl, ms, b.members); }
    case _ =>
  }

  lemma {:induction false} ItemsMean(fl: Rounding, xs: seq<Json>, ys: seq<Json>)
    requires InRangeItems(fl, xs) && InRangeItems(fl, ys) && |xs| == |ys|
    ensures GoItems(fl, xs) == GoItems(fl, ys) <==> forall i :: 0 <= i < |xs| ==> Same(fl, xs[i], ys[i])
    decreases xs, 0
  {
    ItemsAt(fl, xs);
    ItemsAt(fl, ys);
    var vs, ws := GoItems(fl, xs), GoItems(fl, ys);
    forall i | 0 <= i < |xs| ensures vs[i] == ws[i] <==> Same(fl, xs[i], ys[i]) {
      InRangeAt(fl, xs, i);
      InRangeAt(fl, ys, i);
      GoValueMeans(fl, xs[i], ys[i]);
    }
    if forall i :: 0 <= i < |xs| ==> Same(fl, xs[i], ys[i]) { assert forall i :: 0 <= i < |xs| ==> vs[i] == ws[i]; }
  }

  /** `Same` for the members of two objects. */
  ghost predicate SameMembers(fl: Rounding, ms: seq<Member>, ns: seq<Member>) {
    && (forall key :: Names(ms, key) <==> Names(ns, key))
    && forall i, j :: IsLast(ms, i) && IsLast(ns, j) && ms[i].key == ns[j].key ==> Same(fl, ms[i].value, ns[j].value)
  }

  lemma FieldsShare(fl: Rounding, ms: seq<Member>, ns: seq<Member>)
    requires SameMembers(fl, ms, ns)
    requires forall i, j :: IsLast(ms, i) && IsLast(ns, j) && ms[i].key == ns[j].key && Same(fl, ms[i].value, ns[j].value) ==>
      GoValue(fl, ms[i].value) == GoValue(fl, ns[j].value)
    ensures GoFields(fl, ms) == GoFields(fl, ns)
  {
    var a, b := GoFields(fl, ms), GoFields(fl, ns);
    forall key ensures (key in a <==> key in b) && (key in a && key in b ==> a[key] == b[key]) {
      FieldsName(fl, ms, key);
      FieldsName(fl, ns, key);
      if key in a {
        var i := LastNamed(ms, key);
        var j := LastNamed(ns, key);
        FieldIsLast(fl, ms, i);
        FieldIsLast(fl, ns, j);
      }
    }
    assert a.Keys == b.Keys;
  }

  lemma SharedFields(fl: Rounding, ms: seq<Member>, ns: seq<Member>)
    requires GoFields(fl, ms) == GoFields(fl, ns)
    ensures forall key :: Names(ms, key) <==> Names(ns, key)
    ensures forall i, j :: IsLast(ms, i) && IsLast(ns, j) && ms[i].key == ns[j].key ==>
      GoValue(fl, ms[i].value) == GoValue(fl, ns[j].value)
  {
    forall key ensures Names(ms, key) <==> Names(ns, key) {
      FieldsName(fl, ms, key);
      FieldsName(fl, ns, key);
    }
    forall i, j | IsLast(ms, i) && IsLast(ns, j) && ms[i].key == ns[j].key
      ensures GoValue(fl, ms[i].value) == GoValue(fl, ns[j].value)
    {
      FieldIsLast(fl, ms, i);
      FieldIsLast(fl, ns, j);
    }
  }

  lemma {:induction false} FieldsMean(fl: Rounding, ms: seq<Member>, ns: seq<Member>)
    requires InRangeMembers(fl, ms) && InRangeMembers(fl, ns)
    ensures GoFields(fl, ms) == GoFields(fl, ns) <==> SameMembers(fl, ms, ns)
    decreases ms, 0
  {
    forall i, j | IsLast(ms, i) && IsLast(ns, j) && ms[i].key == ns[j].key
      ensures GoValue(fl, ms[i].value) == GoValue(fl, ns[j].value) <==> Same(fl, ms[i].value, ns[j].value)
    {
      InRangeMember(fl, ms, i);
      InRangeMember(fl, ns, j);
      GoValueMeans(fl, ms[i].value, ns[j].value);
    }
    if GoFields(fl, ms) == GoFields(fl, ns) {
      SharedFields(fl, ms, ns);
    } else if SameMembers(fl, ms, ns) {
      FieldsShare(fl, ms, ns);
    }
  }

  // ─── Postgres: JSONB in, text out ────────────────────────────────────────────

  predicate HasKey(ms: seq<Member>, key: string) {
    ms != [] && (ms[0].key == key || HasKey(ms[1..], key))
  }

  /** JSONB orders keys by length, then by bytes. */
  predicate KeyBefore(a: string, b: string) {
    |a| < |b| || (|a| == |b| && BytesBefore(a, b))
  }

  predicate BytesBefore(a: string, b: string)
    requires |a| == |b|
  {
    a != [] && (a[0] < b[0] || (a[0] == b[0] && BytesBefore(a[1..], b[1..])))
  }

  function Insert(ms: seq<Member>, m: Member): seq<Member> {
    if ms == [] || KeyBefore(m.key, ms[0].key) then [m] + ms else [ms[0]] + Insert(ms[1..], m)
  }

  /** Numbers come back in plain decimal notation, and zero has no sign. */
  function Plain(l: Literal): Literal {
    var e := Scale(l);
    var neg := l.neg && l.digits != 0;
    if e >= 0 then Literal(neg, l.digits * Pow10(e), 0, None) else Literal(neg, l.digits, -e, None)
  }

  function Stored(j: Json): Json
    decreases j, 1
  {
    match j
    case Number(l) => Number(Plain(l))
    case Array(items) => Array(StoredItems(items))
    case Object(ms) => Object(StoredMembers(ms))
    case _ => j
  }

  function StoredItems(items: seq<Json>): seq<Json>
    decreases items, 0
  {
    if items == [] then [] else [Stored(items[0])] + StoredItems(items[1..])
  }

  function StoredMembers(ms: seq<Member>): seq<Member>
    decreases ms, 0
  {
    if ms == [] then []
    else if HasKey(ms[1..], ms[0].key) then StoredMembers(ms[1..])
    else Insert(StoredMembers(ms[1..]), Member(ms[0].key, Stored(ms[0].value)))
  }

  // ─── The service's normal form and the exact survival condition ──────────────

  function Normalize(fl: Rounding, doc: Option<Json>): Doc {
    if doc.None? || doc.value.Null? then Absent
    else if InRange(fl, doc.value) then Normalized(GoValue(fl, doc.value))
    else Verbatim(doc.value)
  }

  function ReadBack(doc: Option<Json>): Option<Json> {
    if doc.None? || doc.value.Null? then None else Some(Stored(doc.value))
  }

  /** No negative zero is left once repeated keys have been dropped. */
  predicate KeepsSign(j: Json)
    decreases j, 1
  {
    match j
    case Number(l) => !(l.neg && l.digits == 0)
    case Array(items) => KeepsSignItems(items)
    case Object(ms) => KeepsSignMembers(ms)
    case _ => true
  }

  predicate KeepsSignItems(items: seq<Json>)
    decreases items, 0
  {
    items == [] || (KeepsSign(items[0]) && KeepsSignItems(items[1..]))
  }

  predicate KeepsSignMembers(ms: seq<Member>)
    decreases ms, 0
  {
    ms == [] ||
    ((HasKey(ms[1..], ms[0].key) || KeepsSign(ms[0].value)) && KeepsSignMembers(ms[1..]))
  }

  /** What a client can check before sending: no surviving negative zero, and a document with a
      number too large for a float must already be written the way JSONB prints it. */
  predicate StableDoc(fl: Rounding, doc: Option<Json>) {
    doc.None? || doc.value.Null? ||
    (if InRange(fl, doc.value) then KeepsSign(doc.value) else Stored(doc.value) == doc.value)
  }

  lemma PlainMagnitude(l: Literal)
    ensures Magnitude(Plain(l)) == Magnitude(l)
  {
    assert Pow10(0) == 1;
  }

  lemma {:induction false} InsertFields(fl: Rounding, ms: seq<Member>, m: Member)
    requires !HasKey(ms, m.key)
    ensures GoFields(fl, Insert(ms, m)) == GoFields(fl, ms)[m.key := GoValue(fl, m.value)]
  {
    FieldKeys(fl, ms);
    if ms == [] || KeyBefore(m.key, ms[0].key) {
      assert ([m] + ms)[1..] == ms;
    } else {
      var rest := ms[1..];
      InsertFields(fl, rest, m);
      assert ([ms[0]] + Insert(rest, m))[1..] == Insert(rest, m);
    }
  }

  lemma {:induction false} InsertInRange(fl: Rounding, ms: seq<Member>, m: Member)
    ensures InRangeMembers(fl, Insert(ms, m)) == (InRange(fl, m.value) && InRangeMembers(fl, ms))
  {
    if ms == [] || KeyBefore(m.key, ms[0].key) {
      assert ([m] + ms)[1..] == ms;
    } else {
      InsertInRange(fl, ms[1..], m);
      assert ([ms[0]] + Insert(ms[1..], m))[1..] == Insert(ms[1..], m);
    }
  }

  lemma {:induction false} FieldKeys(fl: Rounding, ms: seq<Member>)
    ensures forall k :: k in GoFields(fl, ms) <==> HasKey(ms, k)
  {
    if ms != [] {
      FieldKeys(fl, ms[1..]);
    }
  }

  /** The JSONB round trip changes the decoded value exactly when a negative zero survives in the document. */
  lemma {:induction false} StoredValue(fl: Rounding, j: Json)
    requires InRange(fl, j)
    ensures InRange(fl, Stored(j))
    ensures GoValue(fl, Stored(j)) == GoValue(fl, j) <==> KeepsSign(j)
    decreases j, 1
  {
    match j
    case Number(l) => PlainMagnitude(l);
    case Array(items) => StoredValueItems(fl, items);
    case Object(ms) => StoredValueMembers(fl, ms);
    case _ =>
  }

  lemma {:induction false} StoredValueItems(fl: Rounding, items: seq<Json>)
    requires InRangeItems(fl, items)
    ensures InRangeItems(fl, StoredItems(items))
    ensures GoItems(fl, StoredItems(items)) == GoItems(fl, items) <==> KeepsSignItems(items)
    decreases items, 0
  {
    if items != [] {
      StoredValue(fl, items[0]);
      StoredValueItems(fl, items[1..]);
      var a, b := GoItems(fl, StoredItems(items)), GoItems(fl, items);
      assert StoredItems(items)[1..] == StoredItems(items[1..]);
      assert a[0] == GoValue(fl, Stored(items[0])) && a[1..] == GoItems(fl, StoredItems(items[1..]));
      assert b[0] == GoValue(fl, items[0]) && b[1..] == GoItems(fl, items[1..]);
      assert a == [a[0]] + a[1..] && b == [b[0]] + b[1..];
    }
  }

  lemma {:induction false} StoredValueMembers(fl: Rounding, ms: seq<Member>)
    requires InRangeMembers(fl, ms)
    ensures InRangeMembers(fl, StoredMembers(ms))
    ensures forall k :: HasKey(StoredMembers(ms), k) <==> HasKey(ms, k)
    ensures GoFields(fl, StoredMembers(ms)) == GoFields(fl, ms) <==> KeepsSignMembers(ms)
    decreases ms, 0
  {
    if ms != [] {
      StoredValue(fl, ms[0].value);
      StoredValueMembers(fl, ms[1..]);
      if HasKey(ms[1..], ms[0].key) {
        RepeatedMember(fl, ms);
      } else {
        NewMember(fl, ms, StoredMembers(ms[1..]), GoValue(fl, Stored(ms[0].value)), GoValue(fl, ms[0].value));
      }
    }
  }

  lemma RepeatedMember(fl: Rounding, ms: seq<Member>)
    requires ms != [] && HasKey(ms[1..], ms[0].key)
    ensures StoredMembers(ms) == StoredMembers(ms[1..]) && GoFields(fl, ms) == GoFields(fl, ms[1..])
    ensures KeepsSignMembers(ms) == KeepsSignMembers(ms[1..])
  {
    FieldKeys(fl, ms[1..]);
  }

  lemma FirstField(fl: Rounding, ms: seq<Member>)
    requires ms != [] && !HasKey(ms[1..], ms[0].key)
    ensures ms[0].key !in GoFields(fl, ms[1..])
    ensures GoFields(fl, ms) == GoFields(fl, ms[1..])[ms[0].key := GoValue(fl, ms[0].value)]
  {
    FieldKeys(fl, ms[1..]);
  }

  /** The member is inserted into the stored rest. */
  lemma NewMember(fl: Rounding, ms: seq<Member>, stored: seq<Member>, x: Value, y: Value)
    requires ms != [] && stored == StoredMembers(ms[1..]) && !HasKey(ms[1..], ms[0].key)
    requires InRange(fl, Stored(ms[0].value)) && InRangeMembers(fl, stored)
    requires x == GoValue(fl, Stored(ms[0].value)) && y == GoValue(fl, ms[0].value)
    requires forall k :: HasKey(stored, k) <==> HasKey(ms[1..], k)
    ensures InRangeMembers(fl, StoredMembers(ms))
    ensures forall k :: HasKey(StoredMembers(ms), k) <==> HasKey(ms, k)
    ensures GoFields(fl, StoredMembers(ms)) == GoFields(fl, ms) <==> GoFields(fl, stored) == GoFields(fl, ms[1..]) && x == y
  {
    var key := ms[0].key;
    FieldKeys(fl, stored);
    var m := Member(key, Stored(ms[0].value));
    InsertFields(fl, stored, m);
    InsertInRange(fl, stored, m);
    forall k ensures HasKey(Insert(stored, m), k) <==> HasKey(stored, k) || k == key { InsertNames(stored, m, k); }
    FirstField(fl, ms);
    FreshKey(GoFields(fl, stored), GoFields(fl, ms[1..]), key, x, y);
  }

  lemma FreshKey<V>(a: map<string, V>, b: map<string, V>, k: string, x: V, y: V)
    requires k !in a && k !in b
    ensures a[k := x] == b[k := y] <==> a == b && x == y
  {
    assert a == a[k := x] - {k} && b == b[k := y] - {k};
    assert a[k := x][k] == x && b[k := y][k] == y;
  }

  /** A document hashes the same before and after the database exactly when it is stable. */
  lemma DocSurvives(fl: Rounding, doc: Option<Json>)
    ensures Normalize(fl, ReadBack(doc)) == Normalize(fl, doc) <==> StableDoc(fl, doc)
  {
    if doc.Some? && !doc.value.Null? {
      if InRange(fl, doc.value) {
        StoredValue(fl, doc.value);
      }
    }
  }

  predicate IsAbsent(doc: Option<Json>) {
    doc.None? || doc.value.Null?
  }

  /** Two documents enter the hash alike exactly if neither is there, or both are in range and mean the same, or both are
      out of range and are the same text. */
  lemma NormalizeMeans(fl: Rounding, x: Option<Json>, y: Option<Json>)
    ensures Normalize(fl, x) == Normalize(fl, y) <==>
      if IsAbsent(x) || IsAbsent(y) then IsAbsent(x) && IsAbsent(y)
      else if InRange(fl, x.value) && InRange(fl, y.value) then Same(fl, x.value, y.value)
      else !InRange(fl, x.value) && !InRange(fl, y.value) && x == y
  {
    if !IsAbsent(x) && !IsAbsent(y) && InRange(fl, x.value) && InRange(fl, y.value) {
      GoValueMeans(fl, x.value, y.value);
    }
  }

  lemma {:induction false} BytesTransitive(a: string, b: string, c: string)
    requires |a| == |b| == |c| && BytesBefore(a, b) && BytesBefore(b, c)
    ensures BytesBefore(a, c)
  {
    if a[0] == b[0] == c[0] { BytesTransitive(a[1..], b[1..], c[1..]); }
  }

  lemma {:induction false} BytesTotal(a: string, b: string)
    requires |a| == |b| && a != b && !BytesBefore(a, b)
    ensures BytesBefore(b, a)
  {
    if a[0] == b[0] {
      assert a == [a[0]] + a[1..] && b == [b[0]] + b[1..];
      BytesTotal(a[1..], b[1..]);
    }
  }

  lemma {:induction false} BytesDiffer(a: string, b: string) returns (p: nat)
    requires |a| == |b| && BytesBefore(a, b)
    ensures p < |a| && a[..p] == b[..p] && a[p] < b[p]
  {
    if a[0] < b[0] {
      p := 0;
    } else {
      var q := BytesDiffer(a[1..], b[1..]);
      p := q + 1;
      assert a[..p] == [a[0]] + a[1..][..q] && b[..p] == [b[0]] + b[1..][..q];
    }
  }

  lemma KeyTransitive(a: string, b: string, c: string)
    requires KeyBefore(a, b) && KeyBefore(b, c)
    ensures KeyBefore(a, c)
  {
    if |a| == |b| == |c| { BytesTransitive(a, b, c); }
  }

  lemma KeyTotal(a: string, b: string)
    requires a != b && !KeyBefore(a, b)
    ensures KeyBefore(b, a)
  {
    if |a| == |b| { BytesTotal(a, b); }
  }

  predicate Sorted(ms: seq<Member>) {
    forall i :: 0 <= i < |ms| - 1 ==> KeyBefore(ms[i].key, ms[i + 1].key)
  }

  lemma {:induction false} InsertSorted(ms: seq<Member>, m: Member)
    requires Sorted(ms) && !HasKey(ms, m.key)
    ensures Sorted(Insert(ms, m)) && Insert(ms, m) != []
    ensures Insert(ms, m)[0].key == m.key || (ms != [] && Insert(ms, m)[0].key == ms[0].key)
  {
    if ms != [] && !KeyBefore(m.key, ms[0].key) {
      var rest := Insert(ms[1..], m);
      InsertSorted(ms[1..], m);
      KeyTotal(m.key, ms[0].key);
      assert KeyBefore(ms[0].key, rest[0].key);
    }
  }

  lemma {:induction false} StoredSorted(ms: seq<Member>)
    ensures Sorted(StoredMembers(ms))
    ensures forall k :: HasKey(StoredMembers(ms), k) <==> HasKey(ms, k)
  {
    if ms != [] {
      StoredSorted(ms[1..]);
      var m := Member(ms[0].key, Stored(ms[0].value));
      if !HasKey(ms[1..], ms[0].key) {
        InsertSorted(StoredMembers(ms[1..]), m);
        forall k ensures HasKey(Insert(StoredMembers(ms[1..]), m), k) <==> HasKey(StoredMembers(ms[1..]), k) || k == m.key {
          InsertNames(StoredMembers(ms[1..]), m, k);
        }
      }
    }
  }

  lemma {:induction false} InsertNames(ms: seq<Member>, m: Member, key: string)
    ensures HasKey(Insert(ms, m), key) <==> HasKey(ms, key) || key == m.key
  {
    if ms == [] || KeyBefore(m.key, ms[0].key) {
      assert ([m] + ms)[1..] == ms;
    } else {
      InsertNames(ms[1..], m, key);
      assert ([ms[0]] + Insert(ms[1..], m))[1..] == Insert(ms[1..], m);
    }
  }

  lemma {:induction false} SortedApart(ms: seq<Member>, i: nat, j: nat)
    requires Sorted(ms) && i < j < |ms|
    ensures KeyBefore(ms[i].key, ms[j].key)
  {
    if i + 1 < j {
      SortedApart(ms, i, j - 1);
      KeyTransitive(ms[i].key, ms[j - 1].key, ms[j].key);
    }
  }

  /** The members of a stored object: each key once, shorter keys first and keys of one length by the first character in
      which they differ. */
  lemma StoredOrder(ms: seq<Member>, i: nat, j: nat) returns (p: nat)
    requires i < j < |StoredMembers(ms)|
    ensures var a, b := StoredMembers(ms)[i].key, StoredMembers(ms)[j].key;
      |a| < |b| || (|a| == |b| && p < |a| && a[..p] == b[..p] && a[p] < b[p])
  {
    var out := StoredMembers(ms);
    StoredSorted(ms);
    SortedApart(out, i, j);
    p := 0;
    if |out[i].key| == |out[j].key| { p := BytesDiffer(out[i].key, out[j].key); }
  }

  predicate Exponentless(j: Json)
    decreases j, 1
  {
    match j
    case Number(l) => l.exp.None?
    case Array(items) => forall i :: 0 <= i < |items| ==> Exponentless(items[i])
    case Object(ms) => forall i :: 0 <= i < |ms| ==> Exponentless(ms[i].value)
    case _ => true
  }

  lemma {:induction false} InsertExponentless(ms: seq<Member>, m: Member)
    requires Exponentless(m.value) && forall i :: 0 <= i < |ms| ==> Exponentless(ms[i].value)
    ensures forall i :: 0 <= i < |Insert(ms, m)| ==> Exponentless(Insert(ms, m)[i].value)
  {
    if !(ms == [] || KeyBefore(m.key, ms[0].key)) {
      InsertExponentless(ms[1..], m);
    }
  }

  lemma {:induction false} StoredExponentless(j: Json)
    ensures Exponentless(Stored(j))
    decreases j, 1
  {
    match j
    case Array(items) => StoredExponentlessItems(items);
    case Object(ms) => StoredExponentlessMembers(ms);
    case _ =>
  }

  lemma {:induction false} StoredExponentlessItems(items: seq<Json>)
    ensures forall i :: 0 <= i < |StoredItems(items)| ==> Exponentless(StoredItems(items)[i])
    decreases items, 0
  {
    if items != [] {
      StoredExponentless(items[0]);
      StoredExponentlessItems(items[1..]);
    }
  }

  lemma {:induction false} StoredExponentlessMembers(ms: seq<Member>)
    ensures forall i :: 0 <= i < |StoredMembers(ms)| ==> Exponentless(StoredMembers(ms)[i].value)
    decreases ms, 0
  {
    if ms != [] {
      StoredExponentless(ms[0].value);
      StoredExponentlessMembers(ms[1..]);
      InsertExponentless(StoredMembers(ms[1..]), Member(ms[0].key, Stored(ms[0].value)));
    }
  }

  /** An out-of-range document that uses exponent notation anywhere never survives. */
  lemma OverflowWithExponentBreaks(fl: Rounding, j: Json)
    requires !j.Null? && !InRange(fl, j) && !Exponentless(j)
    ensures Normalize(fl, ReadBack(Some(j))) != Normalize(fl, Some(j))
  {
    StoredExponentless(j);
    DocSurvives(fl, Some(j));
  }

  /** {"x": -0} is the smallest document the log accepts and later reports as tampered. */
  lemma NegativeZeroBreaks(fl: Rounding)
    requires fl(0.0).Some?
    ensures var doc := Some(Object([Member("x", Number(Literal(true, 0, 0, None)))]));
      InRange(fl, doc.value) && Normalize(fl, ReadBack(doc)) != Normalize(fl, doc)
  {
    var lit := Number(Literal(true, 0, 0, None));
    var ms := [Member("x", lit)];
    assert Magnitude(lit.n) == 0.0;
    assert InRangeMembers(fl, ms[1..]) && !HasKey(ms[1..], "x");
    assert !KeepsSignMembers(ms);
    assert !KeepsSign(Object(ms));
    DocSurvives(fl, Some(Object(ms)));
  }
}
