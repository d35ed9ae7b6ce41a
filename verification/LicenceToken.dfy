/** The licence bundle an officer scans: signing, splitting and verifying the token text. */
module LicenceToken {
  import opened Prelude
  import opened Base64

  // ─── splitN ──────────────────────────────────────────────────────────────────

  /** The first separator at or after `from`, or the end of the text. */
  function Find(s: string, sep: char, from: nat): (k: nat)
    requires from <= |s|
    ensures from <= k <= |s|
    decreases |s| - from
  {
    if from == |s| || s[from] == sep then from else Find(s, sep, from + 1)
  }

  /** The pieces of the text from `start` on: at most `n`, but always one. */
  function Pieces(s: string, sep: char, n: int, start: nat): (pieces: seq<string>)
    requires start <= |s|
    ensures pieces != []
    decreases |s| - start
  {
    var k := Find(s, sep, start);
    if n <= 1 || k == |s| then [s[start..]] else [s[start..k]] + Pieces(s, sep, n - 1, k + 1)
  }

  function SplitN(s: string, sep: char, n: int): (pieces: seq<string>)
    ensures pieces != []
  {
    Pieces(s, sep, n, 0)
  }

  function Join(pieces: seq<string>, sep: char): string
    requires pieces != []
  {
    if |pieces| == 1 then pieces[0] else pieces[0] + [sep] + Join(pieces[1..], sep)
  }

  predicate Without(s: string, sep: char) {
    forall j :: 0 <= j < |s| ==> s[j] != sep
  }

  /** The pieces joined give the text, only the last may hold the separator, and only if there is no room for more. */
  predicate IsSplit(pieces: seq<string>, s: string, sep: char, n: int) {
    && pieces != [] && Join(pieces, sep) == s
    && |pieces| <= (if n < 1 then 1 else n)
    && (forall k {:trigger Without(pieces[k], sep)} :: 0 <= k < |pieces| - 1 ==> Without(pieces[k], sep))
    && (|pieces| < n ==> Without(pieces[|pieces| - 1], sep))
  }

  lemma OneMorePiece(pieces: seq<string>, s: string, sep: char, n: int, rest: string)
    requires n > 1 && |pieces| > 1 && Without(pieces[0], sep) && s == pieces[0] + [sep] + rest
    requires IsSplit(pieces[1..], rest, sep, n - 1)
    ensures IsSplit(pieces, s, sep, n)
  {
    forall k | 0 <= k < |pieces| - 1 ensures Without(pieces[k], sep) {
      if k > 0 { assert Without(pieces[1..][k - 1], sep); }
    }
  }

  lemma {:induction false} FindStops(s: string, sep: char, from: nat)
    requires from <= |s|
    ensures var k := Find(s, sep, from); (k < |s| ==> s[k] == sep) && Without(s[from..k], sep)
    decreases |s| - from
  {
    if from < |s| && s[from] != sep {
      FindStops(s, sep, from + 1);
      var k := Find(s, sep, from);
      forall j | 0 <= j < k - from ensures s[from..k][j] != sep {
        if j > 0 { assert s[from..k][j] == s[from + 1..k][j - 1]; }
      }
    }
  }

  lemma CutApart(s: string, sep: char, start: nat, k: nat)
    requires start <= k < |s| && s[k] == sep
    ensures s[start..] == s[start..k] + [sep] + s[k + 1..]
  {
  }

  lemma {:induction false} PiecesJoin(s: string, sep: char, n: int, start: nat)
    requires start <= |s|
    ensures IsSplit(Pieces(s, sep, n, start), s[start..], sep, n)
    decreases |s| - start
  {
    var k := Find(s, sep, start);
    FindStops(s, sep, start);
    if n > 1 && k < |s| {
      var rest := Pieces(s, sep, n - 1, k + 1);
      PiecesJoin(s, sep, n - 1, k + 1);
      CutApart(s, sep, start, k);
      assert ([s[start..k]] + rest)[1..] == rest;
      OneMorePiece([s[start..k]] + rest, s[start..], sep, n, s[k + 1..]);
    }
  }

  lemma {:induction false} FindIs(s: string, sep: char, from: nat, k: nat)
    requires from <= k <= |s| && (k == |s| || s[k] == sep)
    requires forall j :: from <= j < k ==> s[j] != sep
    ensures Find(s, sep, from) == k
    decreases k - from
  {
    if from < k { FindIs(s, sep, from + 1, k); }
  }

  /** Splitting goes on behind the first separator. */
  lemma CutAt(left: seq<string>, s: string, sep: char, n: int, start: nat, k: nat)
    requires n > 1 && start <= k < |s| && s[k] == sep && forall j :: start <= j < k ==> s[j] != sep
    requires left == Pieces(s, sep, n, start)
    ensures left[0] == s[start..k] && left[1..] == Pieces(s, sep, n - 1, k + 1)
  {
    FindIs(s, sep, start, k);
  }

  lemma NoCut(left: seq<string>, s: string, sep: char, n: int, start: nat)
    requires start <= |s| && (n <= 1 || forall j :: start <= j < |s| ==> s[j] != sep)
    requires left == Pieces(s, sep, n, start)
    ensures left == [s[start..]]
  {
    if n > 1 { FindIs(s, sep, start, |s|); }
  }

  lemma FirstPiece(t: string, p: string, sep: char, rest: string)
    requires t == p + [sep] + rest
    ensures |p| < |t| && t[..|p|] == p && t[|p|] == sep && t[|p| + 1..] == rest
  {
  }

  lemma RestSplits(pieces: seq<string>, s: string, sep: char, n: int)
    requires IsSplit(pieces, s, sep, n) && |pieces| > 1
    ensures n > 1 && Without(pieces[0], sep) && s == pieces[0] + [sep] + Join(pieces[1..], sep)
    ensures IsSplit(pieces[1..], Join(pieces[1..], sep), sep, n - 1)
  {
    var rest := pieces[1..];
    forall k | 0 <= k < |rest| - 1 ensures Without(rest[k], sep) { assert Without(pieces[k + 1], sep); }
  }

  lemma SameFirst(s: string, p: string, q: string, sep: char, t: string, u: string)
    requires s == p + [sep] + t == q + [sep] + u && Without(p, sep) && Without(q, sep)
    ensures p == q && t == u
  {
    FirstPiece(s, p, sep, t);
    FirstPiece(s, q, sep, u);
    assert forall j :: 0 <= j < |p| ==> s[j] == p[j] != sep;
    assert forall j :: 0 <= j < |q| ==> s[j] == q[j] != sep;
  }

  lemma ManyHoldSeparator(pieces: seq<string>, s: string, sep: char, n: int)
    requires IsSplit(pieces, s, sep, n) && |pieces| > 1
    ensures n > 1 && !Without(s, sep)
  {
    RestSplits(pieces, s, sep, n);
    FirstPiece(s, pieces[0], sep, Join(pieces[1..], sep));
  }

  /** A split is determined by what it has to satisfy. */
  lemma {:induction false} SplitUnique(a: seq<string>, b: seq<string>, s: string, sep: char, n: int)
    requires IsSplit(a, s, sep, n) && IsSplit(b, s, sep, n)
    ensures a == b
    decreases |a|
  {
    if |a| > 1 && |b| > 1 {
      RestSplits(a, s, sep, n);
      RestSplits(b, s, sep, n);
      SameFirst(s, a[0], b[0], sep, Join(a[1..], sep), Join(b[1..], sep));
      SplitUnique(a[1..], b[1..], Join(a[1..], sep), sep, n - 1);
      SamePieces(a, b);
    } else if |a| > 1 {
      ManyHoldSeparator(a, s, sep, n);
    } else if |b| > 1 {
      ManyHoldSeparator(b, s, sep, n);
    }
  }

  lemma SamePieces<T>(a: seq<T>, b: seq<T>)
    requires a != [] && b != [] && a[0] == b[0] && a[1..] == b[1..]
    ensures a == b
  {
    assert a == [a[0]] + a[1..] && b == [b[0]] + b[1..];
  }

  /** The split is the one list of pieces with the promised shape. */
  lemma SplitIs(pieces: seq<string>, s: string, sep: char, n: int)
    ensures pieces == SplitN(s, sep, n) <==> IsSplit(pieces, s, sep, n)
  {
    assert s[0..] == s;
    PiecesJoin(s, sep, n, 0);
    if IsSplit(pieces, s, sep, n) { SplitUnique(pieces, SplitN(s, sep, n), s, sep, n); }
  }

  /** No separator between `start` and `i`. */
  predicate Clear(s: string, sep: char, start: nat, i: nat) {
    start <= i <= |s| && forall j :: start <= j < i ==> s[j] != sep
  }

  /** What the loop has split off, and what it still has to split. */
  ghost predicate Progress(out: seq<string>, s: string, sep: char, n: int, start: nat) {
    start <= |s| && SplitN(s, sep, n) == out + Pieces(s, sep, n - |out|, start)
  }

  lemma ProgressBegins(s: string, sep: char, n: int)
    ensures Progress([], s, sep, n, 0)
  {
  }

  lemma ProgressOn(out: seq<string>, s: string, sep: char, n: int, start: nat, k: nat)
    requires Progress(out, s, sep, n, start) && |out| < n - 1 && Clear(s, sep, start, k) && k < |s| && s[k] == sep
    ensures Progress(out + [s[start..k]], s, sep, n, k + 1)
  {
    var left := Pieces(s, sep, n - |out|, start);
    CutAt(left, s, sep, n - |out|, start, k);
    assert out + left == (out + [left[0]]) + left[1..];
  }

  lemma ProgressEnds(out: seq<string>, s: string, sep: char, n: int, start: nat)
    requires Progress(out, s, sep, n, start) && (|out| >= n - 1 || Clear(s, sep, start, |s|))
    ensures out + [s[start..]] == SplitN(s, sep, n) && IsSplit(SplitN(s, sep, n), s, sep, n)
  {
    SplitIs(SplitN(s, sep, n), s, sep, n);
    NoCut(Pieces(s, sep, n - |out|, start), s, sep, n - |out|, start);
  }

  /** A negative `n` would be a negative capacity. */
  method SplitText(s: string, sep: char, n: nat) returns (out: seq<string>)
    ensures out == SplitN(s, sep, n) && IsSplit(out, s, sep, n)
  {
    out := [];
    var start, i := 0, 0;
    ProgressBegins(s, sep, n);
    while i < |s| && |out| < n - 1
      invariant Clear(s, sep, start, i)
      invariant Progress(out, s, sep, n, start)
    {
      if s[i] == sep {
        ProgressOn(out, s, sep, n, start, i);
        out := out + [s[start..i]];
        start := i + 1;
      }
      i := i + 1;
    }
    ProgressEnds(out, s, sep, n, start);
    out := out + [s[start..]];
  }

  // ─── Tokens ──────────────────────────────────────────────────────────────────

  datatype Bundle = Bundle(version: int, licence: string, tenant: string, number: string, issuedAt: int, expiresAt: int)

  /** HMAC-SHA-256 (RFC 2104) of a body under a secret, and the JSON codec of bundles. */
  datatype Codec = Codec(
    mac: (string, seq<byte>) -> seq<byte>, marshal: Bundle -> seq<byte>, unmarshal: seq<byte> -> Option<Bundle>)

  datatype Failure = BadFormat | BadBase64 | SignatureMismatch | BadJson | Expired

  datatype Verdict = Accepted(bundle: Bundle) | Rejected(why: Failure)

  function TokenText(body: seq<byte>, signature: seq<byte>): string {
    "n1." + Encode(body) + "." + Encode(signature)
  }

  function SignBundle(d: Codec, secret: string, b: Bundle): string {
    var body := d.marshal(b);
    TokenText(body, d.mac(secret, body))
  }

  function VerifyParts(d: Codec, secret: string, parts: seq<string>, now: int): Verdict {
    if |parts| != 3 || parts[0] != "n1" then Rejected(BadFormat)
    else
      var body, signature := Decode(parts[1]), Decode(parts[2]);
      if body.None? || signature.None? then Rejected(BadBase64)
      else if d.mac(secret, body.value) != signature.value then Rejected(SignatureMismatch)
      else
        var b := d.unmarshal(body.value);
        if b.None? then Rejected(BadJson)
        else if now > b.value.expiresAt then Rejected(Expired)
        else Accepted(b.value)
  }

  function Verify(d: Codec, secret: string, token: string, now: int): Verdict {
    VerifyParts(d, secret, SplitN(token, '.', 3), now)
  }

  method VerifyBundleString(d: Codec, secret: string, token: string, now: int) returns (v: Verdict)
    ensures v == Verify(d, secret, token, now)
  {
    var parts := SplitText(token, '.', 3);
    if |parts| != 3 || parts[0] != "n1" {
      return Rejected(BadFormat);
    }
    var body := Decode(parts[1]);
    if body.None? {
      return Rejected(BadBase64);
    }
    var signature := Decode(parts[2]);
    if signature.None? {
      return Rejected(BadBase64);
    }
    if d.mac(secret, body.value) != signature.value {
      return Rejected(SignatureMismatch);
    }
    var b := d.unmarshal(body.value);
    if b.None? {
      return Rejected(BadJson);
    }
    if now > b.value.expiresAt {
      return Rejected(Expired);
    }
    return Accepted(b.value);
  }

  /** The token reads n1, dot, the text of `body`, dot, the text of `signature`. */
  predicate Reads(token: string, body: seq<byte>, signature: seq<byte>) {
    var parts := SplitN(token, '.', 3);
    |parts| == 3 && parts[0] == "n1" && Decode(parts[1]) == Some(body) && Decode(parts[2]) == Some(signature)
  }

  lemma ThreeJoined(x: string, y: string)
    ensures Join(["n1", x, y], '.') == "n1." + x + "." + y
  {
    assert ["n1", x, y][1..] == [x, y] && [x, y][1..] == [y];
    assert Join([x, y], '.') == x + "." + y;
    assert "n1" + "." == "n1.";
  }

  lemma ThreeParts(x: string, y: string)
    requires Without(x, '.')
    ensures SplitN("n1." + x + "." + y, '.', 3) == ["n1", x, y]
  {
    ThreeJoined(x, y);
    SplitIs(["n1", x, y], "n1." + x + "." + y, '.', 3);
  }

  lemma TokenReads(body: seq<byte>, signature: seq<byte>)
    ensures SplitN(TokenText(body, signature), '.', 3) == ["n1", Encode(body), Encode(signature)]
    ensures Reads(TokenText(body, signature), body, signature)
  {
    DecodeEncode(body);
    DecodeEncode(signature);
    ThreeParts(Encode(body), Encode(signature));
  }

  /** Verifying a signed bundle returns that bundle until it expires; the JSON codec has to give the bundle back. */
  lemma RoundTrip(d: Codec, secret: string, b: Bundle, now: int)
    requires d.unmarshal(d.marshal(b)) == Some(b)
    ensures Verify(d, secret, SignBundle(d, secret, b), now)
         == if now <= b.expiresAt then Accepted(b) else Rejected(Expired)
  {
    var body := d.marshal(b);
    TokenReads(body, d.mac(secret, body));
  }

  /** A secret verifies another secret's token if and only if both give the body the same code. */
  lemma OtherSecret(d: Codec, secret: string, other: string, b: Bundle, now: int)
    ensures Verify(d, other, SignBundle(d, secret, b), now) == Rejected(SignatureMismatch)
       <==> d.mac(other, d.marshal(b)) != d.mac(secret, d.marshal(b))
  {
    var body := d.marshal(b);
    TokenReads(body, d.mac(secret, body));
  }

  /** Acceptance means: the text is three parts, the signature is the code of the body under the secret, the body
      is the bundle's JSON and the bundle has not expired. */
  lemma AcceptedMeans(d: Codec, secret: string, token: string, b: Bundle, now: int)
    ensures Verify(d, secret, token, now) == Accepted(b)
       <==> exists body :: Reads(token, body, d.mac(secret, body)) && d.unmarshal(body) == Some(b) && now <= b.expiresAt
  {
    if Verify(d, secret, token, now) == Accepted(b) {
      var body := Decode(SplitN(token, '.', 3)[1]).value;
      assert Reads(token, body, d.mac(secret, body));
    }
  }

  /** The decoder is lenient: a token that is read as `body` and `signature` is the printed one exactly when both
      texts are free of line breaks and stray bits. */
  lemma OneSpelling(token: string, body: seq<byte>, signature: seq<byte>)
    requires Reads(token, body, signature)
    ensures token == TokenText(body, signature)
       <==> Canonical(SplitN(token, '.', 3)[1]) && Canonical(SplitN(token, '.', 3)[2])
  {
    var parts := SplitN(token, '.', 3);
    EncodeDecode(parts[1]);
    EncodeDecode(parts[2]);
    TokenReads(body, signature);
    SplitIs(parts, token, '.', 3);
    assert parts == ["n1", parts[1], parts[2]];
    ThreeJoined(parts[1], parts[2]);
  }

  /** What a token that is not accepted is told: not three parts behind the version, a part that is no base64, a signature
      that is not the body's code, a body that is no bundle, or too late; in this order. */
  lemma RejectedMeans(d: Codec, secret: string, token: string, now: int)
    ensures var v, parts := Verify(d, secret, token, now), SplitN(token, '.', 3);
      var shaped := |parts| == 3 && parts[0] == "n1";
      && (v == Rejected(BadFormat) <==> !shaped)
      && (v == Rejected(BadBase64) <==> shaped && (Decode(parts[1]).None? || Decode(parts[2]).None?))
      && (forall body, signature :: Reads(token, body, signature) ==>
            && (v == Rejected(SignatureMismatch) <==> signature != d.mac(secret, body))
            && (v == Rejected(BadJson) <==> signature == d.mac(secret, body) && d.unmarshal(body).None?)
            && (v == Rejected(Expired) <==>
                  signature == d.mac(secret, body) && d.unmarshal(body).Some? && now > d.unmarshal(body).value.expiresAt))
  {
  }

  const LIFETIME := 300

  /** What a holder is given: five minutes from the moment of issue, in whole seconds. */
  function IssueToken(d: Codec, secret: string, licence: string, tenant: string, number: string, now: int): string {
    SignBundle(d, secret, Bundle(1, licence, tenant, number, now, now + LIFETIME))
  }

  /** An issued token starts with its version, is good for exactly the next five minutes, and names the licence and tenant
      it was issued for. */
  lemma IssuedTokenLasts(d: Codec, secret: string, licence: string, tenant: string, number: string, at: int, now: int)
    requires var b := Bundle(1, licence, tenant, number, at, at + 300); d.unmarshal(d.marshal(b)) == Some(b)
    ensures var token := IssueToken(d, secret, licence, tenant, number, at);
      var v := Verify(d, secret, token, now);
      && |token| >= 3 && token[..3] == "n1."
      && (v.Accepted? <==> now <= at + 300)
      && (v.Accepted? ==> v.bundle == Bundle(1, licence, tenant, number, at, at + 300))
      && (v.Rejected? ==> v.why == Expired)
  {
    RoundTrip(d, secret, Bundle(1, licence, tenant, number, at, at + LIFETIME), now);
  }
}
