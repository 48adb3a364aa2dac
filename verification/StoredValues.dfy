/** What the stored JSON of an OTLP value says: nothing but non-finite doubles and unknown variants is lost. */
module StoredValues {
  import opened Common
  import opened Otlp
  import opened Transport

  function HexValue(c: char): int {
    if '0' <= c <= '9' then c as int - '0' as int else if 'a' <= c <= 'f' then c as int - 'a' as int + 10 else -1
  }

  /** Two digits a byte, the high one first. */
  ghost predicate HexOf(bytes: seq<byte>, s: string) {
    |s| == 2 * |bytes| && forall i :: 0 <= i < |bytes| ==> ShowsByte(s, i, bytes[i])
  }

  /** The stored value shows the sent one: the last entry of each key, and bytes in hexadecimal. */
  ghost predicate Shows(v: Json, p: PAny)
    decreases p
  {
    match p.value
    case None => v == JNull
    case Some(POther) => v == JNull
    case Some(PString(s)) => v == JString(s)
    case Some(PBool(b)) => v == JBool(b)
    case Some(PInt(i)) => v == JInt(i)
    case Some(PDouble(d)) => if d.Finite? then v == JFloat(d.value) else v == JNull
    case Some(PBytes(b)) => v.JString? && HexOf(b, v.s)
    case Some(PArray(vs)) =>
      v.JArray? && |v.items| == |vs| && forall i :: 0 <= i < |vs| ==> Shows(v.items[i], vs[i])
    case Some(PKvlist(kvs)) =>
      && v.JObject? && v.members.Keys == Keys(kvs)
      && forall i :: 0 <= i < |kvs| && IsLast(kvs, i) ==>
           kvs[i].key in v.members && ShowsEntry(v.members[kvs[i].key], kvs[i])
  }

  ghost predicate ShowsEntry(v: Json, kv: PKeyValue)
    decreases kv
  {
    if kv.value.Some? then Shows(v, kv.value.value) else v == JNull
  }

  ghost predicate ShowsByte(s: string, i: nat, b: byte)
    requires 2 * i + 1 < |s|
  {
    0 <= HexValue(s[2 * i]) && 0 <= HexValue(s[2 * i + 1]) && 16 * HexValue(s[2 * i]) + HexValue(s[2 * i + 1]) == b
  }

  lemma FirstByte(bytes: seq<byte>)
    requires bytes != []
    ensures var high := Hex([bytes[0]]);
            Hex(bytes) == high + Hex(bytes[1..]) && |high| == 2 && ShowsByte(high, 0, bytes[0])
  {
    assert Hex([bytes[0]]) == [HexDigit(bytes[0] / 16), HexDigit(bytes[0] % 16)] by {
      assert [bytes[0]][1..] == [];
    }
    DigitsOf(bytes[0]);
    hide HexDigit, HexValue;
  }

  lemma LaterByte(high: string, rest: string, i: nat, b: byte)
    requires |high| == 2 && 2 * i + 1 < |rest| && ShowsByte(rest, i, b)
    ensures ShowsByte(high + rest, i + 1, b)
  {
    hide HexValue;
    assert (high + rest)[2 * i + 2] == rest[2 * i] && (high + rest)[2 * i + 3] == rest[2 * i + 1];
  }

  lemma {:induction false} HexAt(bytes: seq<byte>, i: nat)
    requires i < |bytes|
    ensures ShowsByte(Hex(bytes), i, bytes[i])
    decreases i
  {
    FirstByte(bytes);
    var (high, rest) := (Hex([bytes[0]]), Hex(bytes[1..]));
    hide Hex, HexValue;
    if i == 0 {
      assert (high + rest)[0] == high[0] && (high + rest)[1] == high[1];
    } else {
      HexAt(bytes[1..], i - 1);
      LaterByte(high, rest, i - 1, bytes[i]);
    }
  }

  lemma HexDecodes(bytes: seq<byte>)
    ensures HexOf(bytes, Hex(bytes))
  {
    forall i | 0 <= i < |bytes| ensures ShowsByte(Hex(bytes), i, bytes[i]) {
      HexAt(bytes, i);
    }
    hide HexDigit, HexValue;
  }

  lemma DigitsOf(b: byte)
    ensures HexValue(HexDigit(b / 16)) == b / 16 && HexValue(HexDigit(b % 16)) == b % 16
  {
  }

  lemma {:induction false} StoredShows(p: PAny)
    ensures Shows(JsonOfP(p), p)
    decreases p
  {
    match p.value
    case Some(PBytes(b)) => HexDecodes(b);
    case Some(PArray(vs)) =>
      forall i | 0 <= i < |vs| ensures Shows(JsonsOfP(vs)[i], vs[i]) {
        JsonsAtP(vs, i);
        StoredShows(vs[i]);
      }
    case Some(PKvlist(kvs)) =>
      AttributesShow(kvs);
    case _ =>
  }

  /** Stored attributes have the keys that were sent, each with its last value. */
  lemma {:induction false} AttributesShow(kvs: seq<PKeyValue>)
    ensures MapOfP(kvs).Keys == Keys(kvs)
    ensures forall i :: 0 <= i < |kvs| && IsLast(kvs, i) ==> ShowsEntry(MapOfP(kvs)[kvs[i].key], kvs[i])
    decreases kvs
  {
    MapOfPKeys(kvs);
    forall i | 0 <= i < |kvs| && IsLast(kvs, i)
      ensures kvs[i].key in MapOfP(kvs) && ShowsEntry(MapOfP(kvs)[kvs[i].key], kvs[i])
    {
      MapOfPLast(kvs, i);
      if kvs[i].value.Some? {
        StoredShows(kvs[i].value.value);
      }
    }
  }

  /** So does the JSON export, if the value is portable. */
  lemma JsonStoredShows(p: PAny, j: JAny)
    requires Encodes(p, j) && Portable(p)
    ensures Shows(JsonOfJ(j), p)
  {
    ValuesAgreeExactly(p, j);
    StoredShows(p);
  }

  /** By tolerance a JSON number is read, too: a fraction dropped, and what exceeds 64 bits cut off. */
  lemma NumbersAreRead(n: int, x: real)
    ensures Num(n).AsU64() == Some(Max(0, Min(n, U64_MAX)))
    ensures exists m: u64 :: NumFloat(x).AsU64() == Some(m)
              && if x < 0.0 then m == 0 else if x >= U64_MAX as real then m == U64_MAX
                 else m as real <= x < m as real + 1.0
  {
    var m: u64 := if x < 0.0 then 0 else if x >= U64_MAX as real then U64_MAX else x.Floor;
    assert NumFloat(x).AsU64() == Some(m);
  }

  /** A number in a text may have blanks around it: they all go, and nothing else does. */
  lemma {:induction false} TrimExactly(s: string) returns (first: nat, end: nat)
    ensures first <= end <= |s| && Trim(s) == s[first..end]
    ensures forall i :: 0 <= i < first || end <= i < |s| ==> IsBlank(s[i])
    ensures first < end ==> !IsBlank(s[first]) && !IsBlank(s[end - 1])
    decreases |s|
  {
    hide IsBlank;
    first, end := 0, |s|;
    if s != "" && IsBlank(s[0]) {
      first, end := TrimExactly(s[1..]);
      assert forall i :: 1 <= i < |s| ==> s[1..][i - 1] == s[i];
      first, end := first + 1, end + 1;
    } else if s != "" && IsBlank(s[|s| - 1]) {
      first, end := TrimExactly(s[..|s| - 1]);
      assert forall i :: 0 <= i < |s| - 1 ==> s[..|s| - 1][i] == s[i];
    }
  }
}
