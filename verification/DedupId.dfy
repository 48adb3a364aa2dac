/**
 * The bytes that are hashed into the id of a log record, and exactly when two records have the same ones: when
 * they agree in time and in one text made of all the rest. What that text tells about its parts follows.
 */
module DedupId {
  import opened Otlp

  // ---------------------------------------------------------------- UTF-8

  function Utf8Char(c: char): (b: seq<byte>)
    ensures 1 <= |b| <= 4
  {
    var u := c as int;
    var v := u / 0x40;
    var w := v / 0x40;
    if u < 0x80 then [u]
    else if u < 0x800 then [0xC0 + v, 0x80 + u % 0x40]
    else if u < 0x1_0000 then [0xE0 + w, 0x80 + v % 0x40, 0x80 + u % 0x40]
    else [0xF0 + w / 0x40, 0x80 + w % 0x40, 0x80 + v % 0x40, 0x80 + u % 0x40]
  }

  function Utf8(s: string): seq<byte> {
    if s == "" then [] else Utf8Char(s[0]) + Utf8(s[1..])
  }

  /** Section 3 of RFC 3629: no sequence is longer than its character needs, and the later bytes are marked. */
  lemma Utf8Shape(c: char)
    ensures |Utf8Char(c)| == if c as int <= 0x7F then 1 else if c as int <= 0x7FF then 2
                             else if c as int <= 0xFFFF then 3 else 4
    ensures forall i :: 1 <= i < |Utf8Char(c)| ==> 0x80 <= Utf8Char(c)[i] <= 0xBF
  {
  }

  /** The first byte tells the length, and the bytes the character. */
  lemma Utf8CharDecodes(a: char, b: char, x: seq<byte>, y: seq<byte>)
    requires Utf8Char(a) + x == Utf8Char(b) + y
    ensures a == b && x == y
  {
    var p, q := Utf8Char(a), Utf8Char(b);
    assert (p + x)[0] == p[0] && (q + y)[0] == q[0];
    assert |p| == |q|;
    assert p == (p + x)[..|p|] && q == (q + y)[..|p|];
    assert x == (p + x)[|p|..] && y == (q + y)[|p|..];
    CodePointOfEncoded(a);
    CodePointOfEncoded(b);
  }

  /** The code point of an encoded character. */
  function CodePoint(b: seq<byte>): int
    requires 1 <= |b| <= 4
  {
    var b0: int := b[0];
    var b1: int := if |b| > 1 then b[1] as int - 0x80 else 0;
    var b2: int := if |b| > 2 then b[2] as int - 0x80 else 0;
    var b3: int := if |b| > 3 then b[3] as int - 0x80 else 0;
    if |b| == 1 then b0
    else if |b| == 2 then 0x40 * (b0 - 0xC0) + b1
    else if |b| == 3 then 0x40 * (0x40 * (b0 - 0xE0) + b1) + b2
    else 0x40 * (0x40 * (0x40 * (b0 - 0xF0) + b1) + b2) + b3
  }

  lemma CodePointOfEncoded(c: char)
    ensures CodePoint(Utf8Char(c)) == c as int
  {
  }

  lemma {:induction false} Utf8Injective(a: string, b: string)
    requires Utf8(a) == Utf8(b)
    ensures a == b
    decreases |a|
  {
    if a != "" && b != "" {
      Utf8CharDecodes(a[0], b[0], Utf8(a[1..]), Utf8(b[1..]));
      Utf8Injective(a[1..], b[1..]);
      assert a == [a[0]] + a[1..] && b == [b[0]] + b[1..];
    }
  }

  // ---------------------------------------------------------------- little-endian integers

  function LittleEndian(n: nat, k: nat): (b: seq<byte>)
    ensures |b| == k
  {
    if k == 0 then [] else [n % 256] + LittleEndian(n / 256, k - 1)
  }

  function Pow256(k: nat): nat {
    if k == 0 then 1 else 256 * Pow256(k - 1)
  }

  lemma {:induction false} LittleEndianInjective(n: nat, m: nat, k: nat)
    requires n < Pow256(k) && m < Pow256(k) && LittleEndian(n, k) == LittleEndian(m, k)
    ensures n == m
    decreases k
  {
    if k > 0 {
      assert LittleEndian(n, k)[0] == LittleEndian(m, k)[0];
      assert LittleEndian(n, k)[1..] == LittleEndian(m, k)[1..];
      LittleEndianInjective(n / 256, m / 256, k - 1);
    }
  }

  /** An i64 as its eight bytes. */
  function I64Bytes(t: i64): (b: seq<byte>)
    ensures |b| == 8
  {
    LittleEndian(if t < 0 then t + 0x1_0000_0000_0000_0000 else t, 8)
  }

  lemma I64BytesInjective(a: i64, b: i64)
    requires I64Bytes(a) == I64Bytes(b)
    ensures a == b
  {
    assert Pow256(8) == 0x1_0000_0000_0000_0000 by {
      assert Pow256(2) == 0x1_0000 && Pow256(4) == 0x1_0000_0000 && Pow256(6) == 0x1_0000_0000_0000;
    }
    LittleEndianInjective(if a < 0 then a + 0x1_0000_0000_0000_0000 else a,
                          if b < 0 then b + 0x1_0000_0000_0000_0000 else b, 8);
  }

  // ---------------------------------------------------------------- the pre-image

  type Severity = n: nat | n <= 24

  /** What the id depends on; a missing text counts as empty, a missing severity as 0. */
  datatype LogKey = LogKey(
    time: i64,
    service: string,
    body: string,
    traceId: string,
    spanId: string,
    severity: Severity,
    attributes: string)

  function Preimage(k: LogKey): seq<byte> {
    I64Bytes(k.time)
    + (Utf8(k.service) + [0]
       + (Utf8(k.body) + [0]
          + (Utf8(k.traceId) + Utf8(k.spanId) + (LittleEndian(k.severity, 2) + Utf8(k.attributes)))))
  }

  lemma {:induction false} Utf8NulFree(s: string)
    requires '\0' !in s
    ensures 0 !in Utf8(s)
    decreases |s|
  {
    if s != "" {
      Utf8NulFree(s[1..]);
    }
  }

  lemma InFront<T>(x: seq<T>, y: seq<T>)
    ensures forall i :: 0 <= i < |x| ==> (x + y)[i] == x[i]
  {
  }

  lemma SameSplit<T>(a: seq<T>, b: seq<T>, c: seq<T>, d: seq<T>)
    requires a + b == c + d && |a| == |c|
    ensures a == c && b == d
  {
    assert a == (a + b)[..|a|] && c == (c + d)[..|c|];
    assert b == (a + b)[|a|..] && d == (c + d)[|c|..];
  }

  lemma {:induction false} Utf8Append(a: string, b: string)
    ensures Utf8(a + b) == Utf8(a) + Utf8(b)
    decreases |a|
  {
    if a == "" {
      assert a + b == b;
    } else {
      assert (a + b)[1..] == a[1..] + b;
      Utf8Append(a[1..], b);
    }
  }

  const NUL := "\0"

  lemma NulBytes(sev: Severity)
    ensures Utf8(NUL) == [0] && Utf8([sev as char]) == [sev]
  {
    assert NUL[1..] == "" && [sev as char][1..] == "";
  }

  /** The parts of a key in a row: a NUL after each of the two texts, the severity and a NUL after the ids. */
  function Text(k: LogKey): string {
    k.service + NUL + (k.body + NUL + (k.traceId + k.spanId + ([k.severity as char] + NUL + k.attributes)))
  }

  /** After the time come the bytes of that text. */
  lemma PreimageIsText(k: LogKey)
    ensures Preimage(k) == I64Bytes(k.time) + Utf8(Text(k))
  {
    NulBytes(k.severity);
    assert LittleEndian(k.severity, 2) == [k.severity] + [0];
    hide Utf8, LittleEndian, I64Bytes;
    var sev, ids := [k.severity as char] + NUL + k.attributes, k.traceId + k.spanId;
    Utf8Append([k.severity as char], NUL);
    Utf8Append([k.severity as char] + NUL, k.attributes);
    Utf8Append(k.traceId, k.spanId);
    Utf8Append(ids, sev);
    Utf8Append(k.body, NUL);
    Utf8Append(k.body + NUL, ids + sev);
    Utf8Append(k.service, NUL);
    Utf8Append(k.service + NUL, k.body + NUL + (ids + sev));
  }

  /** For all records: the bytes agree exactly when the times and the texts do. */
  lemma PreimagesAgreeExactly(a: LogKey, b: LogKey)
    ensures Preimage(a) == Preimage(b) <==> a.time == b.time && Text(a) == Text(b)
  {
    PreimageIsText(a);
    PreimageIsText(b);
    hide Preimage, Utf8, I64Bytes, Text;
    if Preimage(a) == Preimage(b) {
      SameSplit(I64Bytes(a.time), Utf8(Text(a)), I64Bytes(b.time), Utf8(Text(b)));
      I64BytesInjective(a.time, b.time);
      Utf8Injective(Text(a), Text(b));
    }
  }

  // ---------------------------------------------------------------- what the text tells

  predicate IsHexDigit(c: char) {
    '0' <= c <= '9' || 'a' <= c <= 'f' || 'A' <= c <= 'F'
  }

  /** Absent, or hexadecimal of the standard length. */
  predicate IsId(s: string, length: nat) {
    s == "" || (|s| == length && forall i :: 0 <= i < |s| ==> IsHexDigit(s[i]))
  }

  predicate NulFree(s: string) {
    forall i :: 0 <= i < |s| ==> s[i] != '\0'
  }

  /** No character that could pass for the severity after the ids. */
  predicate Visible(s: string) {
    forall i :: 0 <= i < |s| ==> s[i] as int > 24
  }

  /** Where two keys differ, nothing in them could pass for the separator that follows. */
  predicate Distinguishable(a: LogKey, b: LogKey) {
    && (a.service != b.service ==> NulFree(a.service) && NulFree(b.service))
    && (a.body != b.body ==> NulFree(a.body) && NulFree(b.body))
    && (a.traceId + a.spanId != b.traceId + b.spanId ==>
          Visible(a.traceId + a.spanId) && Visible(b.traceId + b.spanId))
  }

  /** No NUL in the two texts, and ids of the standard lengths. */
  predicate Decodable(k: LogKey) {
    NulFree(k.service) && NulFree(k.body) && IsId(k.traceId, 32) && IsId(k.spanId, 16)
  }

  /** Two rows of parts that end at the same mark, which only equal parts may contain. */
  lemma SplitAt<T>(mark: T, x: seq<T>, y: seq<T>, x': seq<T>, y': seq<T>)
    requires x + [mark] + y == x' + [mark] + y' && (x != x' ==> mark !in x && mark !in x')
    ensures x == x' && y == y'
  {
    assert x + [mark] + y == x + ([mark] + y) && x' + [mark] + y' == x' + ([mark] + y');
    if x != x' {
      InFront(x, [mark] + y);
      InFront(x', [mark] + y');
      assert (x + ([mark] + y))[|x|] == mark && (x' + ([mark] + y'))[|x'|] == mark;
    }
    SameSplit(x, [mark] + y, x', [mark] + y');
    SameSplit([mark], y, [mark], y');
  }

  /** The ids, then a severity below any of their characters: the end of the ids shows. */
  lemma SplitAtSeverity(x: string, sev: Severity, y: string, x': string, sev': Severity, y': string)
    requires x + ([sev as char] + NUL + y) == x' + ([sev' as char] + NUL + y')
    requires x != x' ==> Visible(x) && Visible(x')
    ensures x == x' && sev == sev' && y == y'
  {
    var z, z' := [sev as char] + NUL + y, [sev' as char] + NUL + y';
    if x != x' {
      InFront(x, z);
      InFront(x', z');
      assert (x + z)[|x|] == sev as char && (x' + z')[|x'|] == sev' as char;
    }
    SameSplit(x, z, x', z');
    SameSplit([sev as char] + NUL, y, [sev' as char] + NUL, y');
    assert ([sev as char] + NUL)[0] == ([sev' as char] + NUL)[0];
  }

  /** The texts of such keys agree exactly when the parts do, the two ids put together. */
  lemma TextsAgreeExactly(a: LogKey, b: LogKey)
    requires Distinguishable(a, b)
    ensures Text(a) == Text(b) <==>
              && a.service == b.service && a.body == b.body && a.severity == b.severity
              && a.traceId + a.spanId == b.traceId + b.spanId && a.attributes == b.attributes
  {
    if Text(a) == Text(b) {
      var (x, y) := (a.traceId + a.spanId + ([a.severity as char] + NUL + a.attributes),
                     b.traceId + b.spanId + ([b.severity as char] + NUL + b.attributes));
      hide Visible;
      SplitAt('\0', a.service, a.body + NUL + x, b.service, b.body + NUL + y);
      SplitAt('\0', a.body, x, b.body, y);
      SplitAtSeverity(a.traceId + a.spanId, a.severity, a.attributes, b.traceId + b.spanId, b.severity, b.attributes);
    }
  }

  lemma IdsAreVisible(k: LogKey)
    requires Decodable(k)
    ensures Visible(k.traceId + k.spanId)
  {
  }

  /** With ids of the standard lengths the bytes determine the whole key: only a hash collision joins two records. */
  lemma PreimageDecodes(a: LogKey, b: LogKey)
    requires Decodable(a) && Decodable(b)
    ensures Preimage(a) == Preimage(b) <==> a == b
  {
    IdsAreVisible(a);
    IdsAreVisible(b);
    PreimagesAgreeExactly(a, b);
    TextsAgreeExactly(a, b);
    hide Preimage, Text, Distinguishable, NulFree;
    if Preimage(a) == Preimage(b) {
      assert |a.traceId + a.spanId| == |b.traceId + b.spanId|;
      SameSplit(a.traceId, a.spanId, b.traceId, b.spanId);
    }
  }

  /** Ids of other lengths do collide: nothing separates the two, and the JSON transport does not check them. */
  lemma FreeIdsCollide(k: LogKey, x: string, y: string)
    requires y != ""
    ensures var (a, b) := (k.(traceId := x + y, spanId := ""), k.(traceId := x, spanId := y));
            a != b && Preimage(a) == Preimage(b)
  {
    var a, b := k.(traceId := x + y, spanId := ""), k.(traceId := x, spanId := y);
    assert x + y + "" == x + y && |x + y| != |x|;
    PreimagesAgreeExactly(a, b);
  }

  /** A NUL in the service name collides with one in the body. */
  lemma NulsCollide(k: LogKey, x: string, y: string)
    ensures var (a, b) := (k.(service := x + NUL + y, body := ""), k.(service := x, body := y + NUL));
            a != b && Preimage(a) == Preimage(b)
  {
    var a, b := k.(service := x + NUL + y, body := ""), k.(service := x, body := y + NUL);
    var rest := k.traceId + k.spanId + ([k.severity as char] + NUL + k.attributes);
    assert x + NUL + y + NUL + ("" + NUL + rest) == x + NUL + (y + NUL + NUL + rest);
    assert |x + NUL + y| != |x|;
    PreimagesAgreeExactly(a, b);
  }
}
