/** Percent-encoding (section 2.1 of RFC 3986) and the query string built on it. */
module Codec {

  type Byte = b: int | 0 <= b < 256

  type Text = seq<Byte>

  datatype Result<T> = Ok(value: T) | Error(escape: Text)

  const PERCENT: Byte := 0x25
  const PLUS: Byte := 0x2B
  const SPACE: Byte := 0x20
  const EQUALS: Byte := 0x3D
  const AMPERSAND: Byte := 0x26
  const SEMICOLON: Byte := 0x3B

  /** `$ & + , / : ; = ? @`, then the characters that are unsafe in a URL. */
  predicate IsReserved(c: Byte) {
    c in {0x24, AMPERSAND, PLUS, 0x2C, 0x2F, 0x3A, SEMICOLON, EQUALS, 0x3F, 0x40,
          SPACE, 0x22, 0x3C, 0x3E, 0x23, PERCENT, 0x7B, 0x7D, 0x7C, 0x5C, 0x5E, 0x7E, 0x5B, 0x5D, 0x60}
  }

  predicate IsEscaped(c: Byte, extra: Text) { IsReserved(c) || c < 0x20 || c > 0x7F || c in extra }

  function HexDigit(d: int): Byte
    requires 0 <= d < 16
  {
    if d < 10 then 0x30 + d else 0x41 + d - 10
  }

  predicate IsHex(c: Byte) { 0x30 <= c <= 0x39 || 0x41 <= c <= 0x46 || 0x61 <= c <= 0x66 }

  function HexValue(c: Byte): (v: int)
    requires IsHex(c)
    ensures 0 <= v < 16
  {
    if c <= 0x39 then c - 0x30 else if c <= 0x46 then c - 0x41 + 10 else c - 0x61 + 10
  }

  function EncodeByte(c: Byte, extra: Text): Text {
    if IsEscaped(c, extra) then [PERCENT, HexDigit(c / 16), HexDigit(c % 16)] else [c]
  }

  function Encode(s: Text, extra: Text): Text {
    if s == [] then [] else EncodeByte(s[0], extra) + Encode(s[1..], extra)
  }

  predicate StartsEscape(s: Text) { |s| >= 3 && IsHex(s[1]) && IsHex(s[2]) }

  function Prepend(c: Byte, r: Result<Text>): Result<Text> {
    if r.Ok? then Ok([c] + r.value) else r
  }

  function Decode(s: Text): Result<Text> {
    if s == [] then Ok([])
    else if s[0] != PERCENT then Prepend(if s[0] == PLUS then SPACE else s[0], Decode(s[1..]))
    else if StartsEscape(s) then Prepend(16 * HexValue(s[1]) + HexValue(s[2]), Decode(s[3..]))
    else Error(if |s| < 3 then s else s[..3])
  }

  // ---------------------------------------------------------------- loops

  lemma {:induction false} EncodeApp(a: Text, b: Text, extra: Text)
    ensures Encode(a + b, extra) == Encode(a, extra) + Encode(b, extra)
  {
    if a == [] {
      assert a + b == b;
    } else {
      assert (a + b)[1..] == a[1..] + b;
      EncodeApp(a[1..], b, extra);
    }
  }

  method EncodeLoop(s: Text, extra: Text) returns (out: Text)
    ensures out == Encode(s, extra)
  {
    out := [];
    for i := 0 to |s|
      invariant out == Encode(s[..i], extra)
    {
      assert s[..i + 1] == s[..i] + [s[i]];
      EncodeApp(s[..i], [s[i]], extra);
      assert Encode([s[i]], extra) == EncodeByte(s[i], extra) + Encode([], extra);
      if IsEscaped(s[i], extra) {
        out := out + [PERCENT, HexDigit(s[i] / 16), HexDigit(s[i] % 16)];
      } else {
        out := out + [s[i]];
      }
    }
    assert s[..|s|] == s;
  }

  /** What decoding `rest` adds to what is already decoded. */
  function After(out: Text, r: Result<Text>): Result<Text> {
    if r.Ok? then Ok(out + r.value) else r
  }

  method DecodeLoop(s: Text) returns (r: Result<Text>)
    ensures r == Decode(s)
  {
    var out: Text := [];
    var i := 0;
    assert s[0..] == s;
    AfterEnds([], Decode(s));
    while i < |s|
      invariant 0 <= i <= |s|
      invariant After(out, Decode(s[i..])) == Decode(s)
    {
      ghost var rest := s[i..];
      if s[i] != PERCENT {
        var c := if s[i] == PLUS then SPACE else s[i];
        assert rest[1..] == s[i + 1..];
        AfterPrepend(out, c, Decode(s[i + 1..]));
        out := out + [c];
        i := i + 1;
        continue;
      }
      if i + 2 >= |s| || !IsHex(s[i + 1]) || !IsHex(s[i + 2]) {
        assert !StartsEscape(rest);
        return Error(s[i..if i + 3 <= |s| then i + 3 else |s|]);
      }
      var c := 16 * HexValue(s[i + 1]) + HexValue(s[i + 2]);
      assert StartsEscape(rest) && rest[1] == s[i + 1] && rest[2] == s[i + 2] && rest[3..] == s[i + 3..];
      AfterPrepend(out, c, Decode(s[i + 3..]));
      out := out + [c];
      i := i + 3;
    }
    assert s[i..] == [];
    AfterEnds(out, Decode([]));
    return Ok(out);
  }

  lemma AfterEnds(out: Text, r: Result<Text>)
    ensures After([], r) == r && After(out, Ok([])) == Ok(out)
  {
    assert r.Ok? ==> [] + r.value == r.value;
    assert out + [] == out;
  }

  lemma PrependAfter(c: Byte, out: Text, r: Result<Text>)
    ensures Prepend(c, After(out, r)) == After([c] + out, r)
  {
    if r.Ok? {
      assert [c] + (out + r.value) == [c] + out + r.value;
    }
  }

  lemma AfterPrepend(out: Text, c: Byte, r: Result<Text>)
    ensures After(out, Prepend(c, r)) == After(out + [c], r)
  {
    if r.Ok? {
      assert out + ([c] + r.value) == out + [c] + r.value;
    }
  }

  // ---------------------------------------------------------------- round trip

  lemma HexRoundTrip(d: int)
    requires 0 <= d < 16
    ensures IsHex(HexDigit(d)) && HexValue(HexDigit(d)) == d
  {
  }

  /** Whatever extra characters are escaped, and whatever follows. */
  lemma {:induction false} DecodeAfterEncode(s: Text, extra: Text, rest: Text)
    ensures Decode(Encode(s, extra) + rest) == After(s, Decode(rest))
  {
    if s == [] {
      assert Encode(s, extra) + rest == rest;
      assert Decode(rest).Ok? ==> [] + Decode(rest).value == Decode(rest).value;
    } else {
      var c, e, t := s[0], EncodeByte(s[0], extra), Encode(s[1..], extra) + rest;
      DecodeAfterEncode(s[1..], extra, rest);
      OneByte(c, extra, t);
      assert Encode(s, extra) + rest == e + t;
      PrependAfter(c, s[1..], Decode(rest));
      assert s == [c] + s[1..];
    }
  }

  lemma OneByte(c: Byte, extra: Text, t: Text)
    ensures Decode(EncodeByte(c, extra) + t) == Prepend(c, Decode(t))
  {
    var e := EncodeByte(c, extra);
    if IsEscaped(c, extra) {
      HexRoundTrip(c / 16);
      HexRoundTrip(c % 16);
      assert (e + t)[3..] == t;
    } else {
      assert (e + t)[1..] == t;
    }
  }

  lemma RoundTrip(s: Text, extra: Text)
    ensures Decode(Encode(s, extra)) == Ok(s)
  {
    var rest: Text := [];
    var e := Encode(s, extra);
    DecodeAfterEncode(s, extra, rest);
    assert e + rest == e;
    AfterEnds(s, Decode(rest));
  }

  predicate EscapeAt(t: Text, i: nat) { i + 2 < |t| && IsHex(t[i + 1]) && IsHex(t[i + 2]) }

  /** Decoding fails exactly on a percent sign that two hexadecimal digits do not follow. */
  lemma {:induction false} DecodesIff(t: Text)
    ensures Decode(t).Ok? <==> forall i: nat :: i < |t| && t[i] == PERCENT ==> EscapeAt(t, i)
  {
    if t != [] {
      var n := if t[0] != PERCENT then 1 else 3;
      if n == 1 || StartsEscape(t) {
        var u := t[n..];
        DecodesIff(u);
        assert forall i: nat :: i < |u| ==> u[i] == t[i + n] && (EscapeAt(u, i) <==> EscapeAt(t, i + n));
        if Decode(u).Ok? {
          forall i: nat | i < |t| && t[i] == PERCENT ensures EscapeAt(t, i) {
            if i >= n { assert u[i - n] == PERCENT; }
          }
        } else {
          var i: nat :| i < |u| && u[i] == PERCENT && !EscapeAt(u, i);
          assert t[i + n] == PERCENT && !EscapeAt(t, i + n);
        }
      } else {
        assert !EscapeAt(t, 0);
      }
    }
  }

  /** Encoding is injective, even between different sets of extra characters. */
  lemma EncodeInjective(s: Text, extra: Text, t: Text, extra': Text)
    requires Encode(s, extra) == Encode(t, extra')
    ensures s == t
  {
    RoundTrip(s, extra);
    RoundTrip(t, extra');
  }

  /** No character that is to be escaped survives, apart from the marks of the escapes. */
  lemma {:induction false} EncodedIsClean(s: Text, extra: Text, c: Byte)
    requires c in Encode(s, extra)
    ensures c == PERCENT || IsHex(c) || !IsEscaped(c, extra)
  {
    if s != [] && c !in EncodeByte(s[0], extra) {
      EncodedIsClean(s[1..], extra, c);
    }
  }

  // ---------------------------------------------------------------- query strings

  predicate IsDelimiter(c: Byte) { c == SEMICOLON || c == AMPERSAND }

  function Flush(token: Text): seq<Text> { if token == [] then [] else [token] }

  /** strings::tokenize on `;&`, with the token read so far. */
  function Tokens(q: Text, token: Text): seq<Text> {
    if q == [] then Flush(token)
    else if IsDelimiter(q[0]) then Flush(token) + Tokens(q[1..], [])
    else Tokens(q[1..], token + [q[0]])
  }

  /** Index of the first `=`, or the length. */
  function FirstEquals(t: Text): (n: nat)
    ensures n <= |t|
  {
    if t == [] || t[0] == EQUALS then 0 else 1 + FirstEquals(t[1..])
  }

  datatype Pair = Pair(key: Text, value: Text)

  /** strings::split at the first `=`, each part decoded. */
  function DecodePair(t: Text): Result<Pair> {
    var n := FirstEquals(t);
    var key := Decode(t[..n]);
    if key.Error? then Error(key.escape)
    else if n == |t| then Ok(Pair(key.value, []))
    else
      var value := Decode(t[n + 1..]);
      if value.Error? then Error(value.escape) else Ok(Pair(key.value, value.value))
  }

  function Collect(tokens: seq<Text>, m: map<Text, Text>): Result<map<Text, Text>> {
    if tokens == [] then Ok(m)
    else
      var p := DecodePair(tokens[0]);
      if p.Error? then Error(p.escape) else Collect(tokens[1..], m[p.value.key := p.value.value])
  }

  function DecodeQuery(q: Text): Result<map<Text, Text>> { Collect(Tokens(q, []), map[]) }

  function Item(key: Text, value: Text): Text {
    Encode(key, []) + if value == [] then [] else [EQUALS] + Encode(value, [])
  }

  /** `order` is one of the orders in which the map may be walked. */
  predicate Enumerates(order: seq<Text>, m: map<Text, Text>) {
    && (forall i :: 0 <= i < |order| ==> order[i] in m)
    && (forall i, j :: 0 <= i < j < |order| ==> order[i] != order[j])
    && (forall k :: k in m ==> k in order)
  }

  function Items(order: seq<Text>, m: map<Text, Text>): Text
    requires forall k :: k in order ==> k in m
  {
    if order == [] then [] else Item(order[0], m[order[0]]) + [AMPERSAND] + Items(order[1..], m)
  }

  function Trim(q: Text): Text {
    if q != [] && q[|q| - 1] == AMPERSAND then q[..|q| - 1] else q
  }

  function EncodeQuery(order: seq<Text>, m: map<Text, Text>): Text
    requires forall k :: k in order ==> k in m
  {
    Trim(Items(order, m))
  }

  lemma {:induction false} ItemsSnoc(order: seq<Text>, m: map<Text, Text>, k: Text)
    requires forall j :: j in order + [k] ==> j in m
    ensures (forall j :: j in order ==> j in m) && k in order + [k]
    ensures Items(order + [k], m) == Items(order, m) + Item(k, m[k]) + [AMPERSAND]
  {
    var all := order + [k];
    assert k in all && forall j :: j in order ==> j in all;
    if order == [] {
      assert all == [k] && all[1..] == [];
    } else {
      var head, rest := Item(order[0], m[order[0]]) + [AMPERSAND], order[1..];
      assert all[1..] == rest + [k];
      assert forall j :: j in rest + [k] ==> j in all;
      ItemsSnoc(rest, m, k);
      Regroup(head, Items(rest, m), Item(k, m[k]));
    }
  }

  lemma Regroup(a: Text, b: Text, c: Text)
    ensures a + (b + c + [AMPERSAND]) == a + b + c + [AMPERSAND]
  {
  }

  method EncodeQueryLoop(order: seq<Text>, m: map<Text, Text>) returns (out: Text)
    requires Enumerates(order, m)
    ensures out == EncodeQuery(order, m)
  {
    out := [];
    for i := 0 to |order|
      invariant forall k :: k in order[..i] ==> k in m
      invariant out == Items(order[..i], m)
    {
      var key := order[i];
      assert order[..i + 1] == order[..i] + [key];
      ItemsSnoc(order[..i], m, key);
      var item := EncodeLoop(key, []);
      if m[key] != [] {
        var value := EncodeLoop(m[key], []);
        item := item + ([EQUALS] + value);
      }
      assert item == Item(key, m[key]);
      out := out + item + [AMPERSAND];
    }
    assert order[..|order|] == order;
    if out != [] && out[|out| - 1] == AMPERSAND {
      out := out[..|out| - 1];
    }
  }

  method DecodeQueryLoop(q: Text) returns (r: Result<map<Text, Text>>)
    ensures r == DecodeQuery(q)
  {
    var tokens := Tokens(q, []);
    var m: map<Text, Text> := map[];
    assert tokens[0..] == tokens;
    for i := 0 to |tokens|
      invariant Collect(tokens[i..], m) == DecodeQuery(q)
    {
      assert tokens[i..][1..] == tokens[i + 1..];
      var n := FirstEquals(tokens[i]);
      var key := DecodeLoop(tokens[i][..n]);
      if key.Error? {
        return Error(key.escape);
      }
      if n < |tokens[i]| {
        var value := DecodeLoop(tokens[i][n + 1..]);
        if value.Error? {
          return Error(value.escape);
        }
        m := m[key.value := value.value];
      } else {
        m := m[key.value := []];
      }
    }
    return Ok(m);
  }

  // ---------------------------------------------------------------- query round trip

  predicate Plain(t: Text) { forall i :: 0 <= i < |t| ==> !IsDelimiter(t[i]) }

  lemma EncodedIsPlain(s: Text)
    ensures Plain(Encode(s, [])) && EQUALS !in Encode(s, [])
  {
    forall c | c in Encode(s, []) ensures !IsDelimiter(c) && c != EQUALS {
      EncodedIsClean(s, [], c);
    }
  }

  lemma {:induction false} TokensOfItem(t: Text, token: Text, rest: Text)
    requires Plain(t)
    ensures Tokens(t + [AMPERSAND] + rest, token) == Flush(token + t) + Tokens(rest, [])
  {
    var q := t + [AMPERSAND] + rest;
    if t == [] {
      assert q[1..] == rest && token + t == token;
    } else {
      assert q[1..] == t[1..] + [AMPERSAND] + rest;
      assert !IsDelimiter(t[0]);
      TokensOfItem(t[1..], token + [t[0]], rest);
      assert token + [t[0]] + t[1..] == token + t;
    }
  }

  /** A trailing separator makes no token. */
  lemma {:induction false} TokensTrim(q: Text, token: Text)
    ensures Tokens(q + [AMPERSAND], token) == Tokens(q, token)
  {
    if q == [] {
      assert (q + [AMPERSAND])[1..] == [];
    } else {
      assert (q + [AMPERSAND])[1..] == q[1..] + [AMPERSAND];
      TokensTrim(q[1..], if IsDelimiter(q[0]) then [] else token + [q[0]]);
    }
  }

  lemma {:induction false} FirstEqualsIs(a: Text, b: Text)
    requires EQUALS !in a && (b == [] || b[0] == EQUALS)
    ensures FirstEquals(a + b) == |a|
  {
    if a == [] {
      assert a + b == b;
    } else {
      assert (a + b)[1..] == a[1..] + b;
      FirstEqualsIs(a[1..], b);
    }
  }

  lemma SplitRoundTrip(a: Text, b: Text)
    requires EQUALS !in a
    ensures DecodePair(a) ==
            if Decode(a).Ok? then Ok(Pair(Decode(a).value, [])) else Error(Decode(a).escape)
    ensures Decode(a).Ok? && Decode(b).Ok? ==>
              DecodePair(a + ([EQUALS] + b)) == Ok(Pair(Decode(a).value, Decode(b).value))
  {
    FirstEqualsIs(a, []);
    assert a + [] == a && a[..|a|] == a;
    var t := a + ([EQUALS] + b);
    FirstEqualsIs(a, [EQUALS] + b);
    assert t[..|a|] == a && t[|a| + 1..] == b;
  }

  lemma PairRoundTrip(key: Text, value: Text)
    ensures DecodePair(Item(key, value)) == Ok(Pair(key, value))
  {
    var a, b := Encode(key, []), Encode(value, []);
    EncodedIsPlain(key);
    RoundTrip(key, []);
    RoundTrip(value, []);
    SplitRoundTrip(a, b);
    assert a + [] == a;
  }

  lemma ItemIsPlain(key: Text, value: Text)
    ensures Plain(Item(key, value))
    ensures Item(key, value) == [] <==> key == [] && value == []
  {
    EncodedIsPlain(key);
    EncodedIsPlain(value);
  }

  /** The entries that survive: all but an empty key with an empty value. */
  function Put(m: map<Text, Text>, key: Text, value: Text): map<Text, Text> {
    if key == [] && value == [] then m else m[key := value]
  }

  function Replay(order: seq<Text>, m: map<Text, Text>, into: map<Text, Text>): map<Text, Text>
    requires forall k :: k in order ==> k in m
  {
    if order == [] then into else Replay(order[1..], m, Put(into, order[0], m[order[0]]))
  }

  lemma {:induction false} CollectItems(order: seq<Text>, m: map<Text, Text>, into: map<Text, Text>)
    requires forall k :: k in order ==> k in m
    ensures Collect(Tokens(Items(order, m), []), into) == Ok(Replay(order, m, into))
  {
    if order != [] {
      var key, value, rest := order[0], m[order[0]], Items(order[1..], m);
      var item := Item(key, value);
      PairRoundTrip(key, value);
      ItemIsPlain(key, value);
      TokensOfItem(item, [], rest);
      assert [] + item == item;
      CollectItems(order[1..], m, Put(into, key, value));
      if item == [] {
        assert [] + Tokens(rest, []) == Tokens(rest, []);
      } else {
        assert ([item] + Tokens(rest, []))[1..] == Tokens(rest, []);
      }
    }
  }

  lemma {:induction false} ReplayIs(order: seq<Text>, m: map<Text, Text>, into: map<Text, Text>, k: Text)
    requires forall j :: j in order ==> j in m
    ensures k in Replay(order, m, into) <==> k in into || (k in order && !(k == [] && m[k] == []))
    ensures k in order && !(k == [] && m[k] == []) ==> Replay(order, m, into)[k] == m[k]
    ensures k in Replay(order, m, into) && k !in order ==> Replay(order, m, into)[k] == into[k]
  {
    if order != [] {
      ReplayIs(order[1..], m, Put(into, order[0], m[order[0]]), k);
      assert order == [order[0]] + order[1..];
    }
  }

  /** In every order of iteration, decoding gives back the map without an empty entry. */
  lemma QueryComesBack(order: seq<Text>, m: map<Text, Text>)
    requires Enumerates(order, m)
    ensures DecodeQuery(EncodeQuery(order, m)) == Ok(if [] in m && m[[]] == [] then m - {[]} else m)
  {
    var q := Items(order, m);
    CollectItems(order, m, map[]);
    TrimTokens(q);
    ReplayAll(order, m);
  }

  lemma TrimTokens(q: Text)
    ensures Tokens(Trim(q), []) == Tokens(q, [])
  {
    if q != [] && q[|q| - 1] == AMPERSAND {
      TokensTrim(q[..|q| - 1], []);
      assert q == q[..|q| - 1] + [AMPERSAND];
    }
  }

  lemma ReplayAll(order: seq<Text>, m: map<Text, Text>)
    requires Enumerates(order, m)
    ensures Replay(order, m, map[]) == if [] in m && m[[]] == [] then m - {[]} else m
  {
    var back := Replay(order, m, map[]);
    var want := if [] in m && m[[]] == [] then m - {[]} else m;
    forall k: Text ensures k in back <==> k in want
                   ensures k in back ==> back[k] == want[k]
    {
      ReplayIs(order, m, map[], k);
    }
    assert back == want;
  }

  /** The query string determines the map exactly when the empty key has no empty value. */
  lemma QueryRoundTripIff(order: seq<Text>, m: map<Text, Text>)
    requires Enumerates(order, m)
    ensures DecodeQuery(EncodeQuery(order, m)) == Ok(m) <==> !([] in m && m[[]] == [])
  {
    QueryComesBack(order, m);
    if [] in m && m[[]] == [] {
      assert [] !in m - {[]};
    }
  }

  lemma EmptyEntryIsLost(m: map<Text, Text>)
    requires m == map[[] := []]
    ensures Enumerates([[]], m) && DecodeQuery(EncodeQuery([[]], m)) == Ok(map[])
  {
    QueryComesBack([[]], m);
    assert m - {[]} == map[];
  }

  // ---------------------------------------------------------------- the characters

  const UPPER := "0123456789ABCDEF"
  const LOWER := "0123456789abcdef"

  /** Digits are written in upper case and read in both. */
  lemma DigitsAre(d: int)
    requires 0 <= d < 16
    ensures HexDigit(d) == UPPER[d] as int
    ensures IsHex(UPPER[d] as int) && HexValue(UPPER[d] as int) == d
    ensures IsHex(LOWER[d] as int) && HexValue(LOWER[d] as int) == d
  {
  }

  lemma OnlyDigits(c: Byte)
    requires IsHex(c)
    ensures exists d :: 0 <= d < 16 && (c == UPPER[d] as int || c == LOWER[d] as int)
  {
    var d := HexValue(c);
    assert c == UPPER[d] as int || c == LOWER[d] as int;
  }

  /** The characters that are always escaped, as the code lists them. */
  const LISTED := "$&+,/:;=?@ \"<>#%{}|\\^~[]`"

  lemma ReservedAreListed(c: Byte)
    ensures IsReserved(c) <==> exists i :: 0 <= i < |LISTED| && LISTED[i] as int == c
  {
    if IsReserved(c) {
      var i := if c == 0x24 then 0 else if c == 0x26 then 1 else if c == 0x2B then 2 else if c == 0x2C then 3
        else if c == 0x2F then 4 else if c == 0x3A then 5 else if c == 0x3B then 6 else if c == 0x3D then 7
        else if c == 0x3F then 8 else if c == 0x40 then 9 else if c == 0x20 then 10 else if c == 0x22 then 11
        else if c == 0x3C then 12 else if c == 0x3E then 13 else if c == 0x23 then 14 else if c == 0x25 then 15
        else if c == 0x7B then 16 else if c == 0x7D then 17 else if c == 0x7C then 18 else if c == 0x5C then 19
        else if c == 0x5E then 20 else if c == 0x7E then 21 else if c == 0x5B then 22 else if c == 0x5D then 23 else 24;
      assert LISTED[i] as int == c;
    }
  }

  /** An escaped byte is a percent sign and its two digits, high one first; any other byte stands for itself. A byte is
      escaped if it is listed, a control character, not ASCII, or among the extra characters. */
  lemma EncodesTo(c: Byte, extra: Text)
    ensures var e := Encode([c], extra);
      if (exists i :: 0 <= i < |LISTED| && LISTED[i] as int == c) || c < 0x20 || c > 0x7F || c in extra
      then exists h, l :: 0 <= h < 16 && 0 <= l < 16 && c == 16 * h + l
                          && e == [0x25, UPPER[h] as int, UPPER[l] as int]
      else e == [c]
  {
    ReservedAreListed(c);
    assert Encode([c], extra) == EncodeByte(c, extra) + Encode([], extra);
    var h, l := c / 16, c % 16;
    DigitsAre(h);
    DigitsAre(l);
    if IsEscaped(c, extra) {
      assert Encode([c], extra) == [0x25, UPPER[h] as int, UPPER[l] as int];
    }
  }

  /** Outside escapes decoding turns a plus into a space and leaves everything else. */
  lemma {:induction false} PlainDecodes(t: Text)
    requires PERCENT !in t
    ensures Decode(t).Ok? && |Decode(t).value| == |t|
    ensures forall i :: 0 <= i < |t| ==> Decode(t).value[i] == if t[i] == '+' as int then ' ' as int else t[i]
  {
    if t != [] {
      PlainDecodes(t[1..]);
    }
  }

  /** An escape stands for the byte of its two digits, in either case, wherever it stands. */
  lemma EscapeDecodes(h: int, l: int, high: Byte, low: Byte, rest: Text)
    requires 0 <= h < 16 && 0 <= l < 16
    requires high == UPPER[h] as int || high == LOWER[h] as int
    requires low == UPPER[l] as int || low == LOWER[l] as int
    ensures Decode([0x25, high, low] + rest) == After([16 * h + l], Decode(rest))
  {
    DigitsAre(h);
    DigitsAre(l);
    var t := [0x25, high, low] + rest;
    assert t[3..] == rest;
  }

  // ---------------------------------------------------------------- the separators

  /** The same text with every semicolon written as an ampersand. */
  function Unified(q: Text): Text {
    seq(|q|, (i: int) requires 0 <= i < |q| => if q[i] == ';' as int then '&' as int else q[i])
  }

  lemma {:induction false} TokensUnified(q: Text, token: Text)
    ensures Tokens(Unified(q), token) == Tokens(q, token)
  {
    if q != [] {
      assert Unified(q)[1..] == Unified(q[1..]);
      TokensUnified(q[1..], if IsDelimiter(q[0]) then [] else token + [q[0]]);
    }
  }

  /** A semicolon separates just as an ampersand does. */
  lemma SemicolonsSeparate(q: Text)
    ensures DecodeQuery(Unified(q)) == DecodeQuery(q)
  {
    TokensUnified(q, []);
  }

  lemma {:induction false} CollectsIff(tokens: seq<Text>, m: map<Text, Text>)
    ensures Collect(tokens, m).Ok? <==> forall i :: 0 <= i < |tokens| ==> DecodePair(tokens[i]).Ok?
  {
    if tokens != [] {
      var p := DecodePair(tokens[0]);
      if p.Ok? {
        CollectsIff(tokens[1..], m[p.value.key := p.value.value]);
        assert forall i :: 0 < i < |tokens| ==> tokens[i] == tokens[1..][i - 1];
        assert forall i :: 0 <= i < |tokens| - 1 ==> tokens[1..][i] == tokens[i + 1];
      }
    }
  }

  /** A query decodes exactly when each of its parts does. */
  lemma QueryDecodesIff(q: Text)
    ensures DecodeQuery(q).Ok? <==> forall i :: 0 <= i < |Tokens(q, [])| ==> DecodePair(Tokens(q, [])[i]).Ok?
  {
    var none: map<Text, Text> := map[];
    CollectsIff(Tokens(q, []), none);
    assert DecodeQuery(q) == Collect(Tokens(q, []), none);
  }

  lemma CollectTwo(a: Text, b: Text, p: Pair, q: Pair, m: map<Text, Text>)
    requires DecodePair(a) == Ok(p) && DecodePair(b) == Ok(q)
    ensures Collect([a, b], m) == Ok(m[p.key := p.value][q.key := q.value])
  {
    var one: seq<Text> := [b];
    assert [a, b][1..] == one && one[1..] == [];
    assert Collect(one, m[p.key := p.value]) == Ok(m[p.key := p.value][q.key := q.value]);
  }

  lemma TwoTokens(a: Text, b: Text)
    requires Plain(a) && Plain(b) && a != [] && b != []
    ensures Tokens(a + [AMPERSAND] + b, []) == [a, b]
  {
    TokensOfItem(a, [], b);
    TokensOfItem(b, [], []);
    TokensTrim(b, []);
    assert b + [AMPERSAND] + [] == b + [AMPERSAND];
    assert [] + a == a && [] + b == b;
  }

  /** Of two entries for the same key the later one counts. */
  lemma LaterWins(key: Text, first: Text, second: Text)
    requires key != []
    ensures DecodeQuery(Item(key, first) + [AMPERSAND] + Item(key, second)) == Ok(map[key := second])
  {
    var a, b := Item(key, first), Item(key, second);
    PairRoundTrip(key, first);
    PairRoundTrip(key, second);
    ItemIsPlain(key, first);
    ItemIsPlain(key, second);
    TwoTokens(a, b);
    var none: map<Text, Text> := map[];
    CollectTwo(a, b, Pair(key, first), Pair(key, second), none);
    assert none[key := first][key := second] == map[key := second];
  }

  /** An encoded query is its items with one ampersand between each two and none at the end. */
  lemma QueryIsJoined(order: seq<Text>, m: map<Text, Text>, k: Text)
    requires forall j :: j in order + [k] ==> j in m
    ensures (forall j :: j in order ==> j in m) && k in m
    ensures EncodeQuery(order + [k], m) == Items(order, m) + Item(k, m[k])
  {
    ItemsSnoc(order, m, k);
    var q := Items(order, m) + Item(k, m[k]);
    assert (q + [AMPERSAND])[..|q|] == q;
  }
}
