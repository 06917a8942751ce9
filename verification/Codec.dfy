/** Messages as bytes: Codec.h, and the framing of Dispatcher.h. */
module Codec {
  import opened Common

  type Byte = x: int | 0 <= x < 256 witness 0
  type Bytes = seq<Byte>

  const HEADER := 4
  const INT32_MAX := 0x7fff_ffff

  /** A non-negative int32 in memory, least significant byte first. */
  function Le32(n: nat): Bytes
    requires n <= INT32_MAX
  {
    [n % 256, n / 256 % 256, n / 65536 % 256, n / 16777216]
  }

  /** `ToInt32`. */
  function ToInt32(b: Bytes): int
    requires |b| >= HEADER
  {
    var b0: int, b1: int, b2: int, b3: int := b[0], b[1], b[2], b[3];
    var u := b0 + 256 * b1 + 65536 * b2 + 16777216 * b3;
    if u <= INT32_MAX then u else u - 0x1_0000_0000
  }

  lemma Le32Inverse(n: nat, rest: Bytes)
    requires n <= INT32_MAX
    ensures ToInt32(Le32(n) + rest) == n
  {
    var b := Le32(n) + rest;
    assert b[0] == n % 256 && b[1] == n / 256 % 256 && b[2] == n / 65536 % 256 && b[3] == n / 16777216;
    assert n / 65536 == n / 256 / 256 && n / 16777216 == n / 65536 / 256;
  }

  // ----- one message -----

  /** What is sent behind the length: the length of the type name, the type name with a final
      zero, and the serialized message. */
  function Payload(name: Bytes, body: Bytes): Bytes
    requires |name| < INT32_MAX
  {
    Le32(|name| + 1) + name + [0] + body
  }

  function Frame(p: Bytes): Bytes
    requires |p| <= INT32_MAX
  {
    Le32(|p|) + p
  }

  /** `Encode`: the length is filled in at the end; nothing is sent if the message cannot be
      serialized. */
  method Encode(name: Bytes, body: Option<Bytes>) returns (result: Bytes)
    requires HEADER + |name| + 1 + (if body.Some? then |body.value| else 0) <= INT32_MAX
    ensures result == if body.None? then [] else Frame(Payload(name, body.value))
  {
    result := [0, 0, 0, 0];
    result := result + Le32(|name| + 1);
    result := result + (name + [0]);
    if body.None? {
      return [];
    }
    result := result + body.value;
    var len := Le32(|result| - HEADER);
    ghost var p := Payload(name, body.value);
    assert result == [0, 0, 0, 0] + p;
    for i := 0 to HEADER
      invariant |result| == HEADER + |p| && len == Le32(|p|)
      invariant forall j :: 0 <= j < i ==> result[j] == len[j]
      invariant result[HEADER..] == p
    {
      result := result[i := len[i]];
    }
    assert result == result[..HEADER] + result[HEADER..];
  }

  /** `Decode`: the type name and the bytes of the message; `parses` says whether the type is
      known and the bytes parse as one. */
  function Decode(parses: (Bytes, Bytes) -> bool, buf: Bytes): Option<(Bytes, Bytes)> {
    if |buf| < 10 then None
    else
      var nameLen := ToInt32(buf);
      if 2 <= nameLen <= |buf| - HEADER then
        var name, data := buf[HEADER..HEADER + nameLen - 1], buf[HEADER + nameLen..];
        if parses(name, data) then Some((name, data)) else None
      else None
  }

  /** A message comes back from its payload exactly when its type is known and it parses, its
      type name is not empty, and name and body together have at least five bytes. */
  lemma DecodeEncode(parses: (Bytes, Bytes) -> bool, name: Bytes, body: Bytes)
    requires |name| < INT32_MAX
    ensures Decode(parses, Payload(name, body)) == Some((name, body)) <==> parses(name, body) && |name| >= 1 && |name| + |body| >= 5
    ensures Decode(parses, Payload(name, body)).Some? ==> Decode(parses, Payload(name, body)) == Some((name, body))
  {
    var n, p := |name| + 1, Payload(name, body);
    assert p == Le32(n) + (name + [0] + body);
    Le32Inverse(n, name + [0] + body);
    assert p[HEADER..HEADER + n - 1] == name;
    assert p[HEADER + n..] == body;
  }

  /** What decodes at all: exactly the buffers of at least ten bytes that hold the length of a
      name that is not empty, the name, one byte, and bytes that parse as that type. */
  lemma DecodeExactly(parses: (Bytes, Bytes) -> bool, buf: Bytes, name: Bytes, data: Bytes)
    requires |name| < INT32_MAX
    ensures Decode(parses, buf) == Some((name, data)) <==>
      |buf| >= 10 && name != [] && parses(name, data) && exists end :: buf == Le32(|name| + 1) + name + [end] + data
  {
    var n := |name| + 1;
    if Decode(parses, buf) == Some((name, data)) {
      HeaderBytes(buf);
      assert buf == Le32(n) + name + [buf[HEADER + n - 1]] + data;
    }
    forall end | buf == Le32(n) + name + [end] + data
      ensures ToInt32(buf) == n && buf[HEADER..HEADER + n - 1] == name && buf[HEADER + n..] == data
    {
      assert buf == Le32(n) + (name + [end] + data);
      Le32Inverse(n, name + [end] + data);
    }
  }

  // ----- a stream of messages -----

  ghost predicate Sized(ps: seq<Bytes>) { forall i :: 0 <= i < |ps| ==> |ps[i]| <= INT32_MAX - HEADER }

  /** The bytes of some messages. */
  function Stream(ps: seq<Bytes>): Bytes
    requires Sized(ps)
    decreases |ps|
  {
    if ps == [] then [] else Frame(ps[0]) + Stream(ps[1..])
  }

  lemma {:induction false} StreamAppend(a: seq<Bytes>, b: seq<Bytes>)
    requires Sized(a) && Sized(b)
    ensures Sized(a + b) && Stream(a + b) == Stream(a) + Stream(b)
    decreases |a|
  {
    if a == [] {
      assert a + b == b;
    } else {
      assert (a + b)[1..] == a[1..] + b;
      StreamAppend(a[1..], b);
    }
  }

  /** `HaveCompleteMessage`. */
  predicate HaveComplete(buf: Bytes) { |buf| >= HEADER && |buf| >= ToInt32(buf) + HEADER }

  /** `GetMessage`. */
  function GetMessage(buf: Bytes): Bytes
    requires HaveComplete(buf) && ToInt32(buf) >= 0
  {
    buf[HEADER..HEADER + ToInt32(buf)]
  }

  /** The messages taken from a buffer, and what is left of it. */
  function Parse(buf: Bytes): (seq<Bytes>, Bytes)
    decreases |buf|
  {
    if HaveComplete(buf) && ToInt32(buf) >= 0 then
      var m := GetMessage(buf);
      var (ms, rest) := Parse(buf[HEADER + |m|..]);
      ([m] + ms, rest)
    else ([], buf)
  }

  /** The loop of OnRead: it hands out the messages and returns how many bytes they took. */
  method OnRead(buf: Bytes) returns (dispatched: seq<Bytes>, total: nat)
    ensures total <= |buf| && (dispatched, buf[total..]) == Parse(buf)
  {
    dispatched, total := [], 0;
    assert buf[0..] == buf && [] + Parse(buf).0 == Parse(buf).0;
    while HaveComplete(buf[total..]) && ToInt32(buf[total..]) >= 0
      invariant 0 <= total <= |buf|
      invariant (dispatched + Parse(buf[total..]).0, Parse(buf[total..]).1) == Parse(buf)
      decreases |buf| - total
    {
      ghost var rest := buf[total..];
      var m := GetMessage(buf[total..]);
      assert rest[HEADER + |m|..] == buf[total + HEADER + |m|..];
      ghost var d := dispatched;
      dispatched := dispatched + [m];
      total := total + HEADER + |m|;
      assert d + ([m] + Parse(buf[total..]).0) == dispatched + Parse(buf[total..]).0;
    }
    assert dispatched + [] == dispatched;
  }

  /** Parsing loses nothing and leaves no complete message. */
  lemma {:induction false} ParseStream(buf: Bytes)
    requires |buf| <= INT32_MAX
    ensures var (ms, rest) := Parse(buf); Sized(ms) && Stream(ms) + rest == buf
    ensures var (ms, rest) := Parse(buf); !HaveComplete(rest) || ToInt32(rest) < 0
    decreases |buf|
  {
    hide ToInt32, Le32, Frame;
    if HaveComplete(buf) && ToInt32(buf) >= 0 {
      var m := GetMessage(buf);
      var tail := buf[HEADER + |m|..];
      SplitFrame(buf);
      ParseStream(tail);
      var (ms, rest) := Parse(tail);
      StreamMore(m, ms);
      assert Frame(m) + (Stream(ms) + rest) == Frame(m) + Stream(ms) + rest;
    }
  }

  lemma StreamMore(m: Bytes, ms: seq<Bytes>)
    requires Sized(ms) && |m| <= INT32_MAX - HEADER
    ensures Sized([m] + ms) && Stream([m] + ms) == Frame(m) + Stream(ms)
  {
    assert ([m] + ms)[1..] == ms;
  }

  lemma SplitFrame(buf: Bytes)
    requires HaveComplete(buf) && ToInt32(buf) >= 0 && |buf| <= INT32_MAX
    ensures var m := GetMessage(buf);
      |m| == ToInt32(buf) <= INT32_MAX - HEADER && |buf| >= HEADER + |m| && buf == Frame(m) + buf[HEADER + |m|..]
  {
    hide ToInt32, Le32;
    HeaderBytes(buf);
    var m := GetMessage(buf);
    assert buf == buf[..HEADER] + m + buf[HEADER + |m|..];
  }

  /** The header is determined by the length it encodes. */
  lemma HeaderBytes(buf: Bytes)
    requires |buf| >= HEADER && ToInt32(buf) >= 0
    ensures ToInt32(buf) <= INT32_MAX && buf[..HEADER] == Le32(ToInt32(buf))
  {
    var b0: int, b1: int, b2: int, b3: int := buf[0], buf[1], buf[2], buf[3];
    var n := ToInt32(buf);
    assert n == b0 + 256 * (b1 + 256 * (b2 + 256 * b3));
    assert n % 256 == b0 && n / 256 == b1 + 256 * (b2 + 256 * b3);
    assert n / 65536 == n / 256 / 256 == b2 + 256 * b3;
    assert n / 16777216 == n / 65536 / 256 == b3;
  }

  /** Streams can be read in one way only: if some messages and further bytes are the start of
      the stream of `s`, then they are the first messages of `s`. */
  lemma {:induction false} StreamPrefix(d: seq<Bytes>, rest: Bytes, s: seq<Bytes>, more: Bytes)
    requires Sized(d) && Sized(s) && Stream(d) + rest + more == Stream(s)
    ensures d <= s && rest + more == Stream(s[|d|..])
    decreases |d|
  {
    if d == [] {
      assert s[0..] == s;
      assert Stream(d) + rest + more == rest + more;
    } else {
      var t := Stream(s);
      FirstFrame(d, rest + more, t) by { assert Stream(d) + rest + more == Stream(d) + (rest + more); }
      assert s != [];
      FirstFrame(s, [], t) by { assert t + [] == t; }
      assert d[0] == s[0];
      assert t[HEADER + |d[0]|..] == Stream(d[1..]) + (rest + more) == Stream(s[1..]) + [];
      assert Stream(d[1..]) + rest + more == Stream(d[1..]) + (rest + more);
      assert Stream(s[1..]) + [] == Stream(s[1..]);
      StreamPrefix(d[1..], rest, s[1..], more);
      assert s[1..][|d| - 1..] == s[|d|..];
      assert d == [d[0]] + d[1..] && s == [s[0]] + s[1..];
    }
  }

  /** The first message of a stream is at its beginning. */
  lemma FirstFrame(d: seq<Bytes>, rest: Bytes, t: Bytes)
    requires Sized(d) && d != [] && t == Stream(d) + rest
    ensures |t| >= HEADER + |d[0]| && ToInt32(t) == |d[0]| && t[HEADER..HEADER + |d[0]|] == d[0]
    ensures t[HEADER + |d[0]|..] == Stream(d[1..]) + rest
  {
    var tail := Stream(d[1..]);
    assert Stream(d) == Frame(d[0]) + tail;
    hide Stream;
    FrameFirst(d[0], tail + rest, t) by { assert t == Frame(d[0]) + (tail + rest); }
  }

  lemma FrameFirst(p: Bytes, rest: Bytes, t: Bytes)
    requires |p| <= INT32_MAX && t == Frame(p) + rest
    ensures |t| >= HEADER + |p| && ToInt32(t) == |p| && t[HEADER..HEADER + |p|] == p && t[HEADER + |p|..] == rest
  {
    hide Le32, ToInt32;
    var h := Le32(|p|);
    assert |h| == HEADER by { HeaderLength(|p|); }
    assert t == h + (p + rest);
    Le32Inverse(|p|, p + rest);
  }

  lemma HeaderLength(n: nat)
    requires n <= INT32_MAX
    ensures |Le32(n)| == HEADER
  {
  }
}
