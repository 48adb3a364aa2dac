/**
 * The "JSON Protobuf Encoding" section of the OTLP specification as a relation between the two encodings of a
 * value, and exactly when both are stored as the same JSON value: no negative integer and no bytes in what counts.
 */
module Transport {
  import opened Common
  import opened Decimal
  import opened Otlp

  // ---------------------------------------------------------------- base64, as the specification prescribes for bytes

  function Base64Digit(d: nat): char
    requires d < 64
  {
    "ABCDEFGHIJKLMNOPQRSTUVWXYZabcdefghijklmnopqrstuvwxyz0123456789+/"[d]
  }

  function Base64(b: seq<byte>): string {
    if b == [] then ""
    else if |b| == 1 then [Base64Digit(b[0] / 4), Base64Digit(b[0] % 4 * 16), '=', '=']
    else if |b| == 2 then
      [Base64Digit(b[0] / 4), Base64Digit(b[0] % 4 * 16 + b[1] / 16), Base64Digit(b[1] % 16 * 4), '=']
    else
      [Base64Digit(b[0] / 4), Base64Digit(b[0] % 4 * 16 + b[1] / 16), Base64Digit(b[1] % 16 * 4 + b[2] / 64),
       Base64Digit(b[2] % 64)] + Base64(b[3..])
  }

  lemma {:induction false} Base64Shape(b: seq<byte>)
    requires b != []
    ensures if |b| % 3 == 0 then 3 * |Base64(b)| == 4 * |b| else Base64(b) != "" && Base64(b)[|Base64(b)| - 1] == '='
  {
    hide Base64Digit;
    if |b| > 3 {
      Base64Shape(b[3..]);
      assert |b[3..]| % 3 == |b| % 3;
      assert |Base64(b)| == 4 + |Base64(b[3..])|;
    }
  }

  /** Only the empty byte string has the same base64 and hexadecimal text. */
  lemma HexIsNotBase64(b: seq<byte>)
    ensures Hex(b) == Base64(b) <==> b == []
  {
    if b != [] {
      Base64Shape(b);
    }
  }

  // ---------------------------------------------------------------- the encoding relation

  ghost predicate EncodesInt(i: int, n: StringOrNum) {
    n == Str(PrintInt(i)) || n == Num(i)
  }

  ghost predicate Encodes(p: PAny, j: JAny)
    decreases p
  {
    match p.value
    case None => j == JUnset
    case Some(PString(s)) => j == JUnset.(str := Some(s))
    case Some(PBool(b)) => j == JUnset.(bool' := Some(b))
    case Some(PInt(i)) => j.int'.Some? && j == JUnset.(int' := j.int') && EncodesInt(i, j.int'.value)
    case Some(PDouble(d)) => d.Finite? && j == JUnset.(double := Some(d))
    case Some(PArray(vs)) =>
      && j.arr.Some? && j == JUnset.(arr := j.arr) && |j.arr.value.values| == |vs|
      && forall i :: 0 <= i < |vs| ==> Encodes(vs[i], j.arr.value.values[i])
    case Some(PKvlist(kvs)) =>
      && j.kvlist.Some? && j == JUnset.(kvlist := j.kvlist) && |j.kvlist.value.values| == |kvs|
      && forall i :: 0 <= i < |kvs| ==> EncodesKv(kvs[i], j.kvlist.value.values[i])
    case Some(PBytes(b)) => j == JUnset.(bytes := Some(Base64(b)))
    case Some(POther) => j == JUnset
  }

  ghost predicate EncodesKv(p: PKeyValue, j: JKeyValue)
    decreases p
  {
    p.key == j.key
    && (if p.value.Some? then j.value.Some? && Encodes(p.value.value, j.value.value) else j.value.None?)
  }

  ghost predicate EncodesKvs(ps: seq<PKeyValue>, js: seq<JKeyValue>) {
    |ps| == |js| && forall i :: 0 <= i < |ps| ==> EncodesKv(ps[i], js[i])
  }

  // ---------------------------------------------------------------- what both transports store alike

  /** No later entry has the key of entry i. */
  ghost predicate IsLast(kvs: seq<PKeyValue>, i: nat) {
    i < |kvs| && forall k :: i < k < |kvs| ==> kvs[k].key != kvs[i].key
  }

  ghost predicate Portable(p: PAny)
    decreases p
  {
    match p.value
    case Some(PInt(i)) => i >= 0
    case Some(PBytes(b)) => b == []
    case Some(PArray(vs)) => forall i :: 0 <= i < |vs| ==> Portable(vs[i])
    case Some(PKvlist(kvs)) => forall i :: 0 <= i < |kvs| && IsLast(kvs, i) ==> PortableKv(kvs[i])
    case _ => true
  }

  ghost predicate PortableKv(kv: PKeyValue)
    decreases kv
  {
    kv.value.Some? ==> Portable(kv.value.value)
  }

  /** Entries that a later one with the same key overwrites do not count. */
  ghost predicate PortableKvs(kvs: seq<PKeyValue>) {
    forall i :: 0 <= i < |kvs| && IsLast(kvs, i) ==> PortableKv(kvs[i])
  }

  // ---------------------------------------------------------------- integers

  lemma NothingToTrim(s: string)
    requires s != "" && !IsBlank(s[0]) && !IsBlank(s[|s| - 1])
    ensures Trim(s) == s
  {
  }

  lemma PrintedEnds(i: int)
    ensures !IsBlank(PrintInt(i)[0]) && !IsBlank(PrintInt(i)[|PrintInt(i)| - 1])
    ensures PrintInt(i)[0] != '+'
  {
  }

  /** An integer survives the JSON transport exactly when it is not negative. */
  lemma IntAgrees(i: int, n: StringOrNum)
    requires EncodesInt(i, n) && i <= U64_MAX
    ensures n.AsU64() == Some(i) <==> i >= 0
    ensures i >= 0 ==> n.AsU64().Some?
  {
    if n == Str(PrintInt(i)) {
      PrintedEnds(i);
      NothingToTrim(PrintInt(i));
      if i >= 0 {
        ValueOfPrinted(i);
      } else {
        assert PrintInt(i)[0] == '-';
      }
    }
  }

  // ---------------------------------------------------------------- maps

  ghost function Keys(kvs: seq<PKeyValue>): set<string> {
    set kv | kv in kvs :: kv.key
  }

  lemma {:induction false} MapOfPKeys(kvs: seq<PKeyValue>)
    ensures MapOfP(kvs).Keys == Keys(kvs)
    decreases |kvs|
  {
    if kvs != [] {
      hide ValueOfP;
      var n := |kvs| - 1;
      MapOfPKeys(kvs[..n]);
      assert kvs == kvs[..n] + [kvs[n]];
      assert Keys(kvs) == Keys(kvs[..n]) + {kvs[n].key};
    }
  }

  lemma {:induction false} MapOfPLast(kvs: seq<PKeyValue>, i: nat)
    requires IsLast(kvs, i)
    ensures kvs[i].key in MapOfP(kvs) && MapOfP(kvs)[kvs[i].key] == ValueOfP(kvs[i])
    decreases |kvs|
  {
    hide ValueOfP;
    if i < |kvs| - 1 {
      MapOfPLast(kvs[..|kvs| - 1], i);
    }
  }

  lemma {:induction false} MapOfJKeys(ps: seq<PKeyValue>, js: seq<JKeyValue>)
    requires EncodesKvs(ps, js)
    ensures MapOfJ(js).Keys == Keys(ps)
    decreases |ps|
  {
    if ps != [] {
      hide ValueOfJ, Encodes;
      var n := |ps| - 1;
      assert EncodesKv(ps[n], js[n]);
      MapOfJKeys(ps[..n], js[..n]);
      assert ps == ps[..n] + [ps[n]];
      assert Keys(ps) == Keys(ps[..n]) + {ps[n].key};
    }
  }

  lemma {:induction false} MapOfJLast(ps: seq<PKeyValue>, js: seq<JKeyValue>, i: nat)
    requires EncodesKvs(ps, js) && IsLast(ps, i)
    ensures ps[i].key in MapOfJ(js) && MapOfJ(js)[ps[i].key] == ValueOfJ(js[i])
    decreases |ps|
  {
    hide ValueOfJ, Encodes;
    var n := |ps| - 1;
    assert EncodesKv(ps[i], js[i]) && EncodesKv(ps[n], js[n]);
    if i < n {
      MapOfJLast(ps[..n], js[..n], i);
    }
  }

  /** Every key has a last entry. */
  lemma {:induction false} LastExists(kvs: seq<PKeyValue>, i: nat) returns (last: nat)
    requires i < |kvs|
    ensures IsLast(kvs, last) && kvs[last].key == kvs[i].key
    decreases |kvs| - i
  {
    if IsLast(kvs, i) {
      last := i;
    } else {
      var k :| i < k < |kvs| && kvs[k].key == kvs[i].key;
      last := LastExists(kvs, k);
    }
  }

  lemma MapsAgree(ps: seq<PKeyValue>, js: seq<JKeyValue>)
    requires EncodesKvs(ps, js)
    ensures MapOfJ(js) == MapOfP(ps) <==>
              forall i :: 0 <= i < |ps| && IsLast(ps, i) ==> ValueOfJ(js[i]) == ValueOfP(ps[i])
  {
    assert |ps| == |js|;
    hide ValueOfJ, ValueOfP, MapOfJ, MapOfP, EncodesKvs;
    MapOfPKeys(ps);
    MapOfJKeys(ps, js);
    forall i | 0 <= i < |ps| && IsLast(ps, i)
      ensures ps[i].key in MapOfP(ps) && MapOfP(ps)[ps[i].key] == ValueOfP(ps[i])
           && ps[i].key in MapOfJ(js) && MapOfJ(js)[ps[i].key] == ValueOfJ(js[i])
    {
      MapOfPLast(ps, i);
      MapOfJLast(ps, js, i);
    }
    if forall i :: 0 <= i < |ps| && IsLast(ps, i) ==> ValueOfJ(js[i]) == ValueOfP(ps[i]) {
      forall k | k in MapOfP(ps) ensures MapOfJ(js)[k] == MapOfP(ps)[k] {
        var kv :| kv in ps && kv.key == k;
        var i :| 0 <= i < |ps| && ps[i] == kv;
        var last := LastExists(ps, i);
      }
    }
  }

  // ---------------------------------------------------------------- values

  lemma {:induction false} JsonsAt(vs: seq<JAny>, i: nat)
    requires i < |vs|
    ensures JsonsOfJ(vs)[i] == JsonOfJ(vs[i])
    decreases |vs|
  {
    if i < |vs| - 1 {
      JsonsAt(vs[..|vs| - 1], i);
    }
  }

  lemma {:induction false} JsonsAtP(vs: seq<PAny>, i: nat)
    requires i < |vs|
    ensures JsonsOfP(vs)[i] == JsonOfP(vs[i])
    decreases |vs|
  {
    if i < |vs| - 1 {
      JsonsAtP(vs[..|vs| - 1], i);
    }
  }

  lemma ArraysAgree(vs: seq<PAny>, js: seq<JAny>)
    requires |vs| == |js|
    ensures JsonsOfJ(js) == JsonsOfP(vs) <==> forall i :: 0 <= i < |vs| ==> JsonOfJ(js[i]) == JsonOfP(vs[i])
  {
    hide JsonOfJ, JsonOfP;
    forall i | 0 <= i < |vs| ensures JsonsOfJ(js)[i] == JsonOfJ(js[i]) && JsonsOfP(vs)[i] == JsonOfP(vs[i]) {
      JsonsAt(js, i);
      JsonsAtP(vs, i);
    }
  }

  /** The two encodings of a value are stored as the same JSON exactly when the value is portable. */
  lemma {:induction false} ValuesAgreeExactly(p: PAny, j: JAny)
    requires Encodes(p, j)
    ensures JsonOfJ(j) == JsonOfP(p) <==> Portable(p)
    decreases p
  {
    match p.value
    case Some(PInt(i)) => IntAgrees(i, j.int'.value);
    case Some(PBytes(b)) => HexIsNotBase64(b);
    case Some(PArray(vs)) =>
      var js := j.arr.value.values;
      forall i | 0 <= i < |vs| ensures JsonOfJ(js[i]) == JsonOfP(vs[i]) <==> Portable(vs[i]) {
        assert Encodes(vs[i], js[i]);
        ValuesAgreeExactly(vs[i], js[i]);
      }
      ArraysAgree(vs, js);
    case Some(PKvlist(kvs)) =>
      var js := j.kvlist.value.values;
      forall i | 0 <= i < |kvs| ensures ValueOfJ(js[i]) == ValueOfP(kvs[i]) <==> PortableKv(kvs[i]) {
        assert EncodesKv(kvs[i], js[i]);
        EntriesAgreeExactly(kvs[i], js[i]);
      }
      assert EncodesKvs(kvs, js);
      MapsAgree(kvs, js);
    case _ =>
  }

  lemma {:induction false} EntriesAgreeExactly(p: PKeyValue, j: JKeyValue)
    requires EncodesKv(p, j)
    ensures ValueOfJ(j) == ValueOfP(p) <==> PortableKv(p)
    decreases p
  {
    if p.value.Some? {
      ValuesAgreeExactly(p.value.value, j.value.value);
    }
  }

  /** Attributes are stored alike exactly when every entry that counts is portable. */
  lemma AttributesAgreeExactly(ps: seq<PKeyValue>, js: seq<JKeyValue>)
    requires EncodesKvs(ps, js)
    ensures MapOfJ(js) == MapOfP(ps) <==> PortableKvs(ps)
  {
    hide ValueOfJ, ValueOfP, MapOfJ, MapOfP, PortableKv;
    forall i | 0 <= i < |ps| ensures ValueOfJ(js[i]) == ValueOfP(ps[i]) <==> PortableKv(ps[i]) {
      assert EncodesKv(ps[i], js[i]);
      EntriesAgreeExactly(ps[i], js[i]);
    }
    MapsAgree(ps, js);
  }
}
