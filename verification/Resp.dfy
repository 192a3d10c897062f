/**
 Replies on the wire. `Encode` is what the commands write; `Decode` is a client that
 follows the RESP2 specification (sections "Simple strings", "Simple errors",
 "Integers", "Bulk strings" and "Arrays").
 */
module Resp {
  import opened Text

  datatype Value =
    | Simple(text: string)
    | Error(text: string)
    | Integer(n: int)
    | Bulk(bytes: string)
    | Nil
    | NullArray
    | Array(items: seq<Value>)

  const CRLF: string := "\r\n"

  function Encode(v: Value): (b: string)
    ensures b != ""
  {
    match v
    case Simple(s) => "+" + s + CRLF
    case Error(s) => "-" + s + CRLF
    case Integer(n) => ":" + ToString(n) + CRLF
    case Bulk(s) => "$" + ToString(|s|) + CRLF + s + CRLF
    case Nil => "$-1" + CRLF
    case NullArray => "*-1" + CRLF
    case Array(items) => "*" + ToString(|items|) + CRLF + EncodeAll(items)
  }

  function EncodeAll(vs: seq<Value>): string {
    if vs == [] then "" else Encode(vs[0]) + EncodeAll(vs[1..])
  }

  /** Simple strings and errors cannot carry line breaks; everything else is binary safe. */
  predicate Sendable(v: Value) {
    match v
    case Simple(s) => NoBreak(s)
    case Error(s) => NoBreak(s)
    case Array(items) => forall i :: 0 <= i < |items| ==> Sendable(items[i])
    case _ => true
  }

  predicate NoBreak(s: string) {
    forall i :: 0 <= i < |s| ==> s[i] != '\r' && s[i] != '\n'
  }

  // ----- The client

  /** Length of the text before the first CR LF, if there is one. */
  function LineLength(b: string): (n: Option<nat>)
    ensures n.Some? ==> n.value + 2 <= |b| && b[n.value] == '\r' && b[n.value + 1] == '\n'
  {
    if |b| < 2 then None
    else if b[0] == '\r' && b[1] == '\n' then Some(0)
    else match LineLength(b[1..])
      case Some(n) => Some(n + 1)
      case None => None
  }

  /** A complete line that is an integer and nothing else, and what follows it. */
  function DecodeNumber(b: string): (r: Option<(int, string)>)
    ensures r.Some? ==> |r.value.1| < |b|
  {
    match LineLength(b)
    case None => None
    case Some(n) =>
      match ScanInteger(b[..n])
      case Some((v, used)) => if used == n then Some((v, b[n + 2..])) else None
      case None => None
  }

  /** One value from the front of `b` and the bytes after it; None while it is incomplete or malformed. */
  function Decode(b: string): (r: Option<(Value, string)>)
    ensures r.Some? ==> |r.value.1| < |b|
    decreases |b|, 0
  {
    if b == "" then None
    else if b[0] == '+' || b[0] == '-' then
      match LineLength(b[1..])
      case None => None
      case Some(n) =>
        var text := b[1..][..n];
        Some((if b[0] == '+' then Simple(text) else Error(text), b[1..][n + 2..]))
    else if b[0] == ':' then
      match DecodeNumber(b[1..])
      case Some((n, rest)) => Some((Integer(n), rest))
      case None => None
    else if b[0] == '$' then
      match DecodeNumber(b[1..])
      case Some((n, rest)) => DecodeBulk(n, rest)
      case None => None
    else if b[0] == '*' then
      match DecodeNumber(b[1..])
      case Some((n, rest)) =>
        if n == -1 then Some((NullArray, rest))
        else if n < 0 then None
        else (
          match DecodeItems(rest, n)
          case Some((items, rest')) => Some((Array(items), rest'))
          case None => None
        )
      case None => None
    else None
  }

  function DecodeBulk(n: int, rest: string): (r: Option<(Value, string)>)
    ensures r.Some? ==> |r.value.1| <= |rest|
  {
    if n == -1 then Some((Nil, rest))
    else if n < 0 || |rest| < n + 2 || rest[n..n + 2] != CRLF then None
    else Some((Bulk(rest[..n]), rest[n + 2..]))
  }

  function DecodeItems(b: string, count: nat): (r: Option<(seq<Value>, string)>)
    ensures r.Some? ==> |r.value.1| <= |b|
    decreases |b|, 1
  {
    if count == 0 then Some(([], b))
    else match Decode(b)
      case None => None
      case Some((v, rest)) =>
        match DecodeItems(rest, count - 1)
        case Some((vs, rest')) => Some(([v] + vs, rest'))
        case None => None
  }

  /** Every complete value at the front of a stream, and the unfinished rest. */
  function DecodeStream(b: string): (seq<Value>, string)
    decreases |b|
  {
    match Decode(b)
    case None => ([], b)
    case Some((v, rest)) =>
      var (vs, rest') := DecodeStream(rest);
      ([v] + vs, rest')
  }

  // ----- Reading back what was written

  lemma {:induction false} LineLengthOfLine(text: string, rest: string)
    requires NoBreak(text)
    ensures LineLength(text + CRLF + rest) == Some(|text|)
  {
    var b := text + CRLF + rest;
    if text != "" {
      assert b[1..] == text[1..] + CRLF + rest;
      LineLengthOfLine(text[1..], rest);
      assert b[0] == text[0];
    }
  }

  lemma DecodeNumberOfToString(n: int, rest: string)
    ensures DecodeNumber(ToString(n) + CRLF + rest) == Some((n, rest))
  {
    var b := ToString(n) + CRLF + rest;
    ToStringIsWord(n);
    LineLengthOfLine(ToString(n), rest);
    assert b[..|ToString(n)|] == ToString(n);
    ScanOfToString(n, "");
    assert ToString(n) + "" == ToString(n);
    assert b[|ToString(n)| + 2..] == rest;
  }

  lemma DecodeOfText(tag: char, text: string, rest: string)
    requires NoBreak(text) && tag in "+-"
    ensures Decode([tag] + text + CRLF + rest) ==
            Some((if tag == '+' then Simple(text) else Error(text), rest))
  {
    var b := [tag] + text + CRLF + rest;
    assert b[1..] == text + CRLF + rest;
    LineLengthOfLine(text, rest);
    assert b[1..][..|text|] == text && b[1..][|text| + 2..] == rest;
  }

  lemma DecodeOfBulk(s: string, rest: string)
    ensures Decode(Encode(Bulk(s)) + rest) == Some((Bulk(s), rest))
  {
    var b, tail := Encode(Bulk(s)) + rest, s + CRLF + rest;
    assert b[1..] == ToString(|s|) + CRLF + tail;
    DecodeNumberOfToString(|s|, tail);
    assert tail[..|s|] == s && tail[|s|..|s| + 2] == CRLF && tail[|s| + 2..] == rest;
  }

  lemma DecodeOfInteger(n: int, rest: string)
    ensures Decode(Encode(Integer(n)) + rest) == Some((Integer(n), rest))
  {
    var b := Encode(Integer(n)) + rest;
    assert b[1..] == ToString(n) + CRLF + rest;
    DecodeNumberOfToString(n, rest);
  }

  lemma DecodeOfNil(rest: string)
    ensures Decode(Encode(Nil) + rest) == Some((Nil, rest))
  {
    var b := Encode(Nil) + rest;
    assert Digits(1) == "1" && ToString(-1) == "-1";
    assert b[1..] == ToString(-1) + CRLF + rest;
    DecodeNumberOfToString(-1, rest);
  }

  lemma DecodeOfNullArray(rest: string)
    ensures Decode(Encode(NullArray) + rest) == Some((NullArray, rest))
  {
    var b := Encode(NullArray) + rest;
    assert Digits(1) == "1" && ToString(-1) == "-1";
    assert b[1..] == ToString(-1) + CRLF + rest;
    DecodeNumberOfToString(-1, rest);
  }

  lemma SmallNumbers()
    ensures Digits(0) == "0" && Digits(1) == "1" && Digits(2) == "2" && Digits(3) == "3" && ToString(-1) == "-1"
  {
  }

  /** The kinds of reply, byte by byte; the null bulk string is not the null array. */
  lemma WireFormat()
    ensures Encode(Simple("OK")) == "+OK\r\n" && Encode(Error("ERR x")) == "-ERR x\r\n"
    ensures Encode(Integer(120)) == ":120\r\n" && Encode(Bulk("a b")) == "$3\r\na b\r\n"
    ensures Encode(Nil) == "$-1\r\n" && Encode(NullArray) == "*-1\r\n"
  {
    PrintedNumbers();
    SmallNumbers();
    hide Digits, EncodeAll;
  }

  lemma WireFormatOfArrays()
    ensures Encode(Array([])) == "*0\r\n"
    ensures Encode(Array([Bulk("a"), Nil])) == "*2\r\n$1\r\na\r\n$-1\r\n"
  {
    SmallNumbers();
    hide Digits;
    var items := [Bulk("a"), Nil];
    assert EncodeAll([]) == "" && items[1..] == [Nil] && [Nil][1..] == [];
    assert EncodeAll([Nil]) == "$-1\r\n";
    assert Encode(Bulk("a")) == "$1\r\na\r\n";
    assert EncodeAll(items) == "$1\r\na\r\n" + "$-1\r\n";
  }

  lemma DecodeOfArrayHeader(items: seq<Value>, tail: string, rest: string)
    requires DecodeItems(tail, |items|) == Some((items, rest))
    ensures Decode("*" + ToString(|items|) + CRLF + tail) == Some((Array(items), rest))
  {
    hide DecodeNumber, DecodeBulk, DecodeItems, ToString;
    var b := "*" + ToString(|items|) + CRLF + tail;
    assert b[1..] == ToString(|items|) + CRLF + tail;
    DecodeNumberOfToString(|items|, tail);
  }

  /** The client recovers the value and leaves the bytes that follow it alone. */
  lemma {:induction false} DecodeOfEncode(v: Value, rest: string)
    requires Sendable(v)
    ensures Decode(Encode(v) + rest) == Some((v, rest))
    decreases v, 0
  {
    match v
    case Simple(s) =>
      DecodeOfText('+', s, rest);
      assert "+" + s + CRLF + rest == ['+'] + s + CRLF + rest;
    case Error(s) =>
      DecodeOfText('-', s, rest);
      assert "-" + s + CRLF + rest == ['-'] + s + CRLF + rest;
    case Integer(n) => DecodeOfInteger(n, rest);
    case Bulk(s) => DecodeOfBulk(s, rest);
    case Nil => DecodeOfNil(rest);
    case NullArray => DecodeOfNullArray(rest);
    case Array(items) =>
      DecodeItemsOfEncodeAll(items, rest);
      DecodeOfArrayHeader(items, EncodeAll(items) + rest, rest);
      var header := "*" + ToString(|items|) + CRLF;
      assert header + EncodeAll(items) + rest == header + (EncodeAll(items) + rest);
  }

  lemma {:induction false} DecodeItemsOfEncodeAll(vs: seq<Value>, rest: string)
    requires AllSendable(vs)
    ensures DecodeItems(EncodeAll(vs) + rest, |vs|) == Some((vs, rest))
    decreases vs, 1
  {
    if vs == [] {
      assert EncodeAll(vs) + rest == rest;
    } else {
      var tail := EncodeAll(vs[1..]) + rest;
      assert EncodeAll(vs) + rest == Encode(vs[0]) + tail;
      DecodeOfEncode(vs[0], tail);
      DecodeItemsOfEncodeAll(vs[1..], rest);
      assert [vs[0]] + vs[1..] == vs && |vs[1..]| == |vs| - 1;
    }
  }

  // ----- More bytes never change what has been decoded

  lemma {:induction false} LineLengthExtends(b: string, more: string)
    requires LineLength(b).Some?
    ensures LineLength(b + more) == LineLength(b)
  {
    if !(b[0] == '\r' && b[1] == '\n') {
      assert (b + more)[1..] == b[1..] + more;
      LineLengthExtends(b[1..], more);
    }
  }

  lemma DecodeNumberExtends(b: string, more: string)
    requires DecodeNumber(b).Some?
    ensures DecodeNumber(b + more) == Some((DecodeNumber(b).value.0, DecodeNumber(b).value.1 + more))
  {
    LineLengthExtends(b, more);
    var n := LineLength(b).value;
    assert (b + more)[..n] == b[..n] && (b + more)[n + 2..] == b[n + 2..] + more;
  }

  lemma DecodeBulkExtends(n: int, rest: string, more: string)
    requires DecodeBulk(n, rest).Some?
    ensures DecodeBulk(n, rest + more) ==
            Some((DecodeBulk(n, rest).value.0, DecodeBulk(n, rest).value.1 + more))
  {
    if n >= 0 {
      var r := rest + more;
      assert r[n..n + 2] == rest[n..n + 2] && r[..n] == rest[..n] && r[n + 2..] == rest[n + 2..] + more;
    }
  }

  lemma {:induction false} DecodeExtends(b: string, more: string)
    requires Decode(b).Some?
    ensures Decode(b + more) == Some((Decode(b).value.0, Decode(b).value.1 + more))
    decreases |b|, 0
  {
    var tail := b[1..];
    assert (b + more)[1..] == tail + more;
    if b[0] == '+' || b[0] == '-' {
      LineLengthExtends(tail, more);
      var n := LineLength(tail).value;
      assert (tail + more)[..n] == tail[..n] && (tail + more)[n + 2..] == tail[n + 2..] + more;
    } else {
      DecodeNumberExtends(tail, more);
      var (n, rest) := DecodeNumber(tail).value;
      if b[0] == '$' {
        DecodeBulkExtends(n, rest, more);
      } else if b[0] == '*' && n != -1 {
        DecodeItemsExtends(rest, n, more);
      }
    }
  }

  lemma {:induction false} DecodeItemsExtends(b: string, count: nat, more: string)
    requires DecodeItems(b, count).Some?
    ensures DecodeItems(b + more, count) ==
            Some((DecodeItems(b, count).value.0, DecodeItems(b, count).value.1 + more))
    decreases |b|, 1
  {
    hide Decode;
    if count > 0 {
      DecodeExtends(b, more);
      DecodeItemsExtends(Decode(b).value.1, count - 1, more);
    }
  }

  /** Nothing that is a proper prefix of an encoded value decodes. */
  lemma PrefixFree(v: Value, p: string, q: string)
    requires Sendable(v) && Encode(v) == p + q && q != ""
    ensures Decode(p).None?
  {
    assert Encode(v) + "" == p + q;
    DecodeOfEncode(v, "");
    if Decode(p).Some? {
      DecodeExtends(p, q);
    }
  }

  predicate AllSendable(vs: seq<Value>) {
    forall i :: 0 <= i < |vs| ==> Sendable(vs[i])
  }

  lemma StreamStep(v: Value, rest: string)
    requires Sendable(v)
    ensures DecodeStream(Encode(v) + rest) == ([v] + DecodeStream(rest).0, DecodeStream(rest).1)
  {
    DecodeOfEncode(v, rest);
  }

  /** What has been received of the first, still incomplete, reply decodes to nothing. */
  lemma StreamStuck(vs: seq<Value>, received: string, unsent: string)
    requires AllSendable(vs) && EncodeAll(vs) == received + unsent
    requires vs != [] ==> |received| < |Encode(vs[0])|
    ensures DecodeStream(received) == ([], received)
  {
    if vs != [] {
      var first := Encode(vs[0]);
      assert received == (received + unsent)[..|received|] == first[..|received|];
      PrefixFree(vs[0], received, first[|received|..]);
    }
  }

  lemma SplitFirst(v: Value, later: string, received: string, unsent: string)
    requires Encode(v) + later == received + unsent && |received| >= |Encode(v)|
    ensures received == Encode(v) + received[|Encode(v)|..]
    ensures later == received[|Encode(v)|..] + unsent
  {
    var n := |Encode(v)|;
    assert received[..n] == (received + unsent)[..n] == Encode(v);
    assert later == (received + unsent)[n..];
  }

  /** From `received` the client has the first `n` of `vs` and an incomplete part of the next. */
  ghost predicate Recovered(vs: seq<Value>, received: string, n: nat, partial: string) {
    && n <= |vs|
    && DecodeStream(received) == (vs[..n], partial)
    && received == EncodeAll(vs[..n]) + partial
    && (n < |vs| ==> |partial| < |Encode(vs[n])|)
  }

  lemma EncodeAllStep(v: Value, vs: seq<Value>)
    ensures EncodeAll([v] + vs) == Encode(v) + EncodeAll(vs)
  {
    assert ([v] + vs)[1..] == vs;
  }

  lemma RecoveredStep(vs: seq<Value>, rest: string, n: nat, partial: string)
    requires vs != [] && Sendable(vs[0]) && Recovered(vs[1..], rest, n, partial)
    ensures Recovered(vs, Encode(vs[0]) + rest, n + 1, partial)
  {
    hide Decode, DecodeItems, Encode;
    var first, some := vs[0], vs[1..][..n];
    StreamStep(first, rest);
    assert vs[..n + 1] == [first] + some;
    EncodeAllStep(first, some);
    assert Encode(first) + (EncodeAll(some) + partial) == Encode(first) + EncodeAll(some) + partial;
    if n + 1 < |vs| {
      assert vs[n + 1] == vs[1..][n];
    }
  }

  /**
   Concatenated replies are uniquely decodable, at every moment: from any part of the
   stream received so far the client recovers exactly the replies that are complete.
   */
  lemma {:induction false} StreamDecodes(vs: seq<Value>, received: string, unsent: string)
      returns (n: nat, partial: string)
    requires AllSendable(vs) && EncodeAll(vs) == received + unsent
    ensures Recovered(vs, received, n, partial)
  {
    if vs == [] || |received| < |Encode(vs[0])| {
      StreamStuck(vs, received, unsent);
      n, partial := 0, received;
    } else {
      SplitFirst(vs[0], EncodeAll(vs[1..]), received, unsent);
      var rest := received[|Encode(vs[0])|..];
      n, partial := StreamDecodes(vs[1..], rest, unsent);
      RecoveredStep(vs, rest, n, partial);
      n := n + 1;
    }
  }

  /** Once everything has arrived, exactly the replies that were sent are recovered. */
  lemma {:induction false} WholeStreamDecodes(vs: seq<Value>)
    requires AllSendable(vs)
    ensures DecodeStream(EncodeAll(vs)) == (vs, "")
  {
    if vs != [] {
      StreamStep(vs[0], EncodeAll(vs[1..]));
      WholeStreamDecodes(vs[1..]);
      assert [vs[0]] + vs[1..] == vs;
    }
  }

  lemma {:induction false} EncodeAllOfAppend(a: seq<Value>, b: seq<Value>)
    ensures EncodeAll(a + b) == EncodeAll(a) + EncodeAll(b)
  {
    if a == [] {
      assert a + b == b;
    } else {
      assert (a + b)[1..] == a[1..] + b;
      EncodeAllOfAppend(a[1..], b);
    }
  }
}
