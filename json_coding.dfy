/**
 The persisted and transmitted form of a list store. The app stores the
 `JSONEncoder` output of `[DecisionList]`; this module stands in for that
 encoder and decoder with a self-delimiting byte format for the same data
 (identifier, name, options, in order) and proves that decoding an encoding
 gives the lists back. The decoder rejects bytes that do not describe a
 list store.
 */
module JsonCoding {

  import opened Wrappers
  import opened Models

  type Byte = b: int | 0 <= b < 256
  type Bytes = seq<Byte>

  // Naturals: little-endian groups of seven bits, the high bit marking "more follows".

  function EncodeNat(n: nat): (r: Bytes)
    ensures |r| > 0
    decreases n
  {
    if n < 128 then [n] else [128 + n % 128] + EncodeNat(n / 128)
  }

  function DecodeNat(b: Bytes): Option<(nat, Bytes)>
    decreases |b|
  {
    if |b| == 0 then None
    else if b[0] < 128 then Some((b[0], b[1..]))
    else match DecodeNat(b[1..])
      case None => None
      case Some((high, rest)) => Some((b[0] - 128 + 128 * high, rest))
  }

  lemma {:induction false} NatRoundTrip(n: nat, rest: Bytes)
    ensures DecodeNat(EncodeNat(n) + rest) == Some((n, rest))
    decreases n
  {
    var b := EncodeNat(n) + rest;
    if n < 128 {
      assert b[1..] == rest;
    } else {
      assert b[1..] == EncodeNat(n / 128) + rest;
      NatRoundTrip(n / 128, rest);
    }
  }

  // Characters: their Unicode scalar value.

  predicate IsScalarValue(n: nat) {
    n < 0xD800 || 0xE000 <= n < 0x11_0000
  }

  function EncodeChar(c: char): Bytes {
    EncodeNat(c as nat)
  }

  function DecodeChar(b: Bytes): Option<(char, Bytes)> {
    match DecodeNat(b)
    case None => None
    case Some((n, rest)) => if IsScalarValue(n) then Some((n as char, rest)) else None
  }

  lemma CharRoundTrip(c: char, rest: Bytes)
    ensures DecodeChar(EncodeChar(c) + rest) == Some((c, rest))
  {
    NatRoundTrip(c as nat, rest);
  }

  // Strings: the number of characters, then the characters.

  function EncodeChars(s: string): Bytes {
    if s == [] then [] else EncodeChar(s[0]) + EncodeChars(s[1..])
  }

  function DecodeChars(count: nat, b: Bytes): Option<(string, Bytes)> {
    if count == 0 then Some(([], b))
    else match DecodeChar(b)
      case None => None
      case Some((c, afterChar)) =>
        match DecodeChars(count - 1, afterChar)
        case None => None
        case Some((cs, rest)) => Some(([c] + cs, rest))
  }

  lemma {:induction false} CharsRoundTrip(s: string, rest: Bytes)
    ensures DecodeChars(|s|, EncodeChars(s) + rest) == Some((s, rest))
  {
    if s != [] {
      var tail := EncodeChars(s[1..]) + rest;
      assert EncodeChars(s) + rest == EncodeChar(s[0]) + tail;
      CharRoundTrip(s[0], tail);
      CharsRoundTrip(s[1..], rest);
      assert [s[0]] + s[1..] == s;
    } else {
      assert EncodeChars(s) + rest == rest;
    }
  }

  function EncodeString(s: string): Bytes {
    EncodeNat(|s|) + EncodeChars(s)
  }

  function DecodeString(b: Bytes): Option<(string, Bytes)> {
    match DecodeNat(b)
    case None => None
    case Some((count, afterCount)) => DecodeChars(count, afterCount)
  }

  lemma StringRoundTrip(s: string, rest: Bytes)
    ensures DecodeString(EncodeString(s) + rest) == Some((s, rest))
  {
    assert EncodeString(s) + rest == EncodeNat(|s|) + (EncodeChars(s) + rest);
    NatRoundTrip(|s|, EncodeChars(s) + rest);
    CharsRoundTrip(s, rest);
  }

  // Option sequences: the strings one after another (their number is written before them).

  function EncodeStrings(ss: seq<string>): Bytes {
    if ss == [] then [] else EncodeString(ss[0]) + EncodeStrings(ss[1..])
  }

  function DecodeStrings(count: nat, b: Bytes): Option<(seq<string>, Bytes)> {
    if count == 0 then Some(([], b))
    else match DecodeString(b)
      case None => None
      case Some((s, afterString)) =>
        match DecodeStrings(count - 1, afterString)
        case None => None
        case Some((ss, rest)) => Some(([s] + ss, rest))
  }

  lemma {:induction false} StringsRoundTrip(ss: seq<string>, rest: Bytes)
    ensures DecodeStrings(|ss|, EncodeStrings(ss) + rest) == Some((ss, rest))
  {
    if ss != [] {
      var tail := EncodeStrings(ss[1..]) + rest;
      assert EncodeStrings(ss) + rest == EncodeString(ss[0]) + tail;
      StringRoundTrip(ss[0], tail);
      StringsRoundTrip(ss[1..], rest);
      assert [ss[0]] + ss[1..] == ss;
    } else {
      assert EncodeStrings(ss) + rest == rest;
    }
  }

  // One decision list: identifier, name, number of options, options.

  const UuidBound: nat := 0x1_0000_0000_0000_0000_0000_0000_0000_0000

  function EncodeDecisionList(l: DecisionList): Bytes {
    EncodeNat(l.id) + EncodeString(l.name) + EncodeNat(|l.options|) + EncodeStrings(l.options)
  }

  function DecodeDecisionList(b: Bytes): Option<(DecisionList, Bytes)> {
    match DecodeNat(b)
    case None => None
    case Some((id, afterId)) =>
      if id >= UuidBound then None
      else match DecodeString(afterId)
        case None => None
        case Some((name, afterName)) =>
          match DecodeNat(afterName)
          case None => None
          case Some((count, afterCount)) =>
            match DecodeStrings(count, afterCount)
            case None => None
            case Some((options, rest)) => Some((DecisionList(id, name, options), rest))
  }

  lemma DecisionListRoundTrip(l: DecisionList, rest: Bytes)
    ensures DecodeDecisionList(EncodeDecisionList(l) + rest) == Some((l, rest))
  {
    var afterCount := EncodeStrings(l.options) + rest;
    var afterName := EncodeNat(|l.options|) + afterCount;
    var afterId := EncodeString(l.name) + afterName;
    assert EncodeDecisionList(l) + rest == EncodeNat(l.id) + afterId;
    NatRoundTrip(l.id, afterId);
    StringRoundTrip(l.name, afterName);
    NatRoundTrip(|l.options|, afterCount);
    StringsRoundTrip(l.options, rest);
  }

  // The whole store.

  function EncodeDecisionLists(ls: seq<DecisionList>): Bytes {
    if ls == [] then [] else EncodeDecisionList(ls[0]) + EncodeDecisionLists(ls[1..])
  }

  function DecodeDecisionLists(count: nat, b: Bytes): Option<(seq<DecisionList>, Bytes)> {
    if count == 0 then Some(([], b))
    else match DecodeDecisionList(b)
      case None => None
      case Some((l, afterList)) =>
        match DecodeDecisionLists(count - 1, afterList)
        case None => None
        case Some((ls, rest)) => Some(([l] + ls, rest))
  }

  lemma {:induction false} DecisionListsRoundTrip(ls: seq<DecisionList>, rest: Bytes)
    ensures DecodeDecisionLists(|ls|, EncodeDecisionLists(ls) + rest) == Some((ls, rest))
  {
    if ls != [] {
      var tail := EncodeDecisionLists(ls[1..]) + rest;
      assert EncodeDecisionLists(ls) + rest == EncodeDecisionList(ls[0]) + tail;
      DecisionListRoundTrip(ls[0], tail);
      DecisionListsRoundTrip(ls[1..], rest);
      assert [ls[0]] + ls[1..] == ls;
    } else {
      assert EncodeDecisionLists(ls) + rest == rest;
    }
  }

  /** `JSONEncoder().encode(lists)` when the encoder does not throw. */
  function Serialize(ls: seq<DecisionList>): Bytes {
    EncodeNat(|ls|) + EncodeDecisionLists(ls)
  }

  /** `try? JSONDecoder().decode([DecisionList].self, from: data)`. */
  function Deserialize(b: Bytes): Option<seq<DecisionList>> {
    match DecodeNat(b)
    case None => None
    case Some((count, afterCount)) =>
      match DecodeDecisionLists(count, afterCount)
      case None => None
      case Some((ls, rest)) => if rest == [] then Some(ls) else None
  }

  /** Decoding what was encoded gives back the same lists, in the same order. */
  lemma RoundTrip(ls: seq<DecisionList>)
    ensures Deserialize(Serialize(ls)) == Some(ls)
  {
    var body := EncodeDecisionLists(ls);
    assert Serialize(ls) == EncodeNat(|ls|) + body;
    NatRoundTrip(|ls|, body);
    DecisionListsRoundTrip(ls, []);
    assert body + [] == body;
  }

  /** Data that is present but empty does not decode. */
  lemma EmptyDataIsCorrupt()
    ensures Deserialize([]) == None
  {
  }

  /**
   In this byte format, bytes after a complete store make the data
   undecodable. (JSON text is more lenient: white space may follow.)
   */
  lemma TrailingBytesAreCorrupt(ls: seq<DecisionList>, extra: Bytes)
    requires extra != []
    ensures Deserialize(Serialize(ls) + extra) == None
  {
    var body := EncodeDecisionLists(ls);
    assert Serialize(ls) + extra == EncodeNat(|ls|) + (body + extra);
    NatRoundTrip(|ls|, body + extra);
    DecisionListsRoundTrip(ls, extra);
  }

  /**
   The encoder. `JSONEncoder.encode` is declared `throws`; which inputs make
   it throw is outside this model, so the encoder carries that as a predicate.
   */
  datatype JsonEncoder = JsonEncoder(refuses: seq<DecisionList> -> bool) {

    /** `try? JSONEncoder().encode(lists)`: the bytes, or `None` when it throws. */
    function Encode(lists: seq<DecisionList>): (r: Option<Bytes>)
      ensures r.Some? <==> !refuses(lists)
      ensures r.Some? ==> Deserialize(r.value) == Some(lists)
    {
      RoundTrip(lists);
      if refuses(lists) then None else Some(Serialize(lists))
    }
  }

}
