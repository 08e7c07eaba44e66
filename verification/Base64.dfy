/** Base64 as the channels use it: standard padded encoding, a strict decoder that still accepts non-zero trailing bits,
    and the canonical form, which does not (section 3.5 of RFC 4648). */
module Base64 {
  import opened Vocabulary
  import opened Frame

  const PAD: Byte := 61

  function Sextet(b: Byte): (n: Option<nat>)
    ensures n.Some? ==> n.value < 64 && b != PAD
  {
    if 65 <= b <= 90 then Some(b - 65)
    else if 97 <= b <= 122 then Some(b - 71)
    else if 48 <= b <= 57 then Some(b + 4)
    else if b == 43 then Some(62)
    else if b == 47 then Some(63)
    else None
  }

  function Symbol(n: nat): (b: Byte)
    requires n < 64
    ensures b != PAD && Sextet(b) == Some(n)
  {
    if n < 26 then 65 + n else if n < 52 then 71 + n else if n < 62 then n - 4 else if n == 62 then 43 else 47
  }

  function Quad(a: Byte, b: Byte, c: Byte): Bytes {
    [Symbol(a / 4), Symbol(a % 4 * 16 + b / 16), Symbol(b % 16 * 4 + c / 64), Symbol(c % 64)]
  }

  function Encode64(data: Bytes): Bytes {
    if data == [] then []
    else if |data| == 1 then [Symbol(data[0] / 4), Symbol(data[0] % 4 * 16), PAD, PAD]
    else if |data| == 2 then
      [Symbol(data[0] / 4), Symbol(data[0] % 4 * 16 + data[1] / 16), Symbol(data[1] % 16 * 4), PAD]
    else Quad(data[0], data[1], data[2]) + Encode64(data[3..])
  }

  function TrailingPads(text: Bytes): (n: nat)
    ensures n <= |text|
  {
    if text == [] || text[|text| - 1] != PAD then 0 else 1 + TrailingPads(text[..|text| - 1])
  }

  /** Whole groups of four symbols give three bytes, a last group of three two, of two one; a single symbol is
      refused. */
  function DecodeGroups(data: Bytes): Option<Bytes> {
    if data == [] then Some([])
    else if |data| == 1 then None
    else
      var (p, q) := (Sextet(data[0]), Sextet(data[1]));
      if p.None? || q.None? then None
      else if |data| == 2 then Some([p.value * 4 + q.value / 16])
      else
        var r := Sextet(data[2]);
        if r.None? then None
        else if |data| == 3 then Some([p.value * 4 + q.value / 16, q.value % 16 * 16 + r.value / 4])
        else
          var (s, rest) := (Sextet(data[3]), DecodeGroups(data[4..]));
          if s.None? || rest.None? then None
          else
            Some([p.value * 4 + q.value / 16, q.value % 16 * 16 + r.value / 4, r.value % 4 * 64 + s.value] + rest.value)
  }

  function DecodeStrict(text: Bytes): Option<Bytes> {
    var pads := TrailingPads(text);
    if |text| % 4 != 0 || pads > 2 then None else DecodeGroups(text[..|text| - pads])
  }

  /** Strict and canonical: decoded, then encoded to the same text. */
  function Canonical64(text: Bytes): Option<Bytes> {
    var data := DecodeStrict(text);
    if data.Some? && Encode64(data.value) == text then data else None
  }

  lemma {:induction false} PadsOfSum(x: Bytes, y: Bytes)
    requires TrailingPads(y) < |y|
    ensures TrailingPads(x + y) == TrailingPads(y)
  {
    if y[|y| - 1] == PAD {
      assert (x + y)[..|x + y| - 1] == x + y[..|y| - 1];
      PadsOfSum(x, y[..|y| - 1]);
    }
  }

  /** Every encoding ends in at most two pads after at least two symbols. */
  lemma {:induction false} EncodedPads(data: Bytes)
    ensures |Encode64(data)| % 4 == 0 && TrailingPads(Encode64(data)) <= 2
    ensures data != [] ==> TrailingPads(Encode64(data)) + 2 <= |Encode64(data)|
  {
    hide Symbol, Sextet;
    var text := Encode64(data);
    if |data| >= 3 {
      EncodedPads(data[3..]);
      var quad := Quad(data[0], data[1], data[2]);
      if data[3..] == [] {
        assert text == quad;
      } else {
        PadsOfSum(quad, Encode64(data[3..]));
      }
    } else if |data| == 1 {
      assert text[..3][..2] == text[..2];
      assert TrailingPads(text[..2]) == 0 && TrailingPads(text[..3]) == 1;
    } else if |data| == 2 {
      assert TrailingPads(text[..3]) == 0;
    }
  }

  /** The symbols of an encoding, without its pads. */
  function Symbols(data: Bytes): Bytes {
    Encode64(data)[..|Encode64(data)| - TrailingPads(Encode64(data))]
  }

  lemma Mixed(high: nat, low: nat, base: nat)
    requires base == 4 || base == 16
    requires low < base
    ensures (high * base + low) / base == high && (high * base + low) % base == low
  {
  }

  /** The bits of three bytes in four sextets. */
  lemma Parts(a: Byte, b: Byte, c: Byte)
    ensures (a % 4 * 16 + b / 16) / 16 == a % 4 && (a % 4 * 16 + b / 16) % 16 == b / 16
    ensures (b % 16 * 4 + c / 64) / 4 == b % 16 && (b % 16 * 4 + c / 64) % 4 == c / 64
    ensures a / 4 * 4 + a % 4 == a && b / 16 * 16 + b % 16 == b && c / 64 * 64 + c % 64 == c
  {
    Mixed(a % 4, b / 16, 16);
    Mixed(b % 16, c / 64, 4);
  }

  lemma OneByte(a: Byte)
    ensures DecodeGroups([Symbol(a / 4), Symbol(a % 4 * 16)]) == Some([a])
  {
    hide Symbol, Sextet;
    Parts(a, 0, 0);
  }

  lemma TwoBytes(a: Byte, b: Byte)
    ensures DecodeGroups([Symbol(a / 4), Symbol(a % 4 * 16 + b / 16), Symbol(b % 16 * 4)]) == Some([a, b])
  {
    hide Symbol, Sextet;
    Parts(a, b, 0);
    assert b % 16 * 4 + 0 / 64 == b % 16 * 4;
  }

  lemma QuadParts(a: Byte, b: Byte, c: Byte)
    ensures var quad := Quad(a, b, c);
            var (p, q, r, s) := (Sextet(quad[0]), Sextet(quad[1]), Sextet(quad[2]), Sextet(quad[3]));
            && |quad| == 4 && p.Some? && q.Some? && r.Some? && s.Some?
            && p.value * 4 + q.value / 16 == a && q.value % 16 * 16 + r.value / 4 == b
            && r.value % 4 * 64 + s.value == c
  {
    hide Symbol, Sextet;
    Parts(a, b, c);
  }

  lemma FirstGroup(data: Bytes)
    requires |data| >= 4
    requires Sextet(data[0]).Some? && Sextet(data[1]).Some? && Sextet(data[2]).Some? && Sextet(data[3]).Some?
    ensures var (p, q, r, s) := (Sextet(data[0]).value, Sextet(data[1]).value, Sextet(data[2]).value,
                                 Sextet(data[3]).value);
            var rest := DecodeGroups(data[4..]);
            DecodeGroups(data) == if rest.None? then None
              else Some([p * 4 + q / 16, q % 16 * 16 + r / 4, r % 4 * 64 + s] + rest.value)
  {
    hide Sextet;
  }

  lemma ThreeBytes(a: Byte, b: Byte, c: Byte, symbols: Bytes)
    ensures var rest := DecodeGroups(symbols);
            DecodeGroups(Quad(a, b, c) + symbols) == if rest.None? then None else Some([a, b, c] + rest.value)
  {
    hide Symbol, Sextet, Quad, DecodeGroups;
    QuadParts(a, b, c);
    var quad := Quad(a, b, c);
    var data := quad + symbols;
    assert data[4..] == symbols;
    assert data[0] == quad[0] && data[1] == quad[1] && data[2] == quad[2] && data[3] == quad[3];
    FirstGroup(data);
  }

  lemma NoGroups()
    ensures DecodeGroups([]) == Some([])
  {
  }

  lemma QuadHasNoPad(a: Byte, b: Byte, c: Byte)
    ensures TrailingPads(Quad(a, b, c)) == 0
  {
  }

  lemma OnePad(a: Byte, b: Byte)
    requires b != PAD
    ensures TrailingPads([a, b, PAD, PAD]) == 2
  {
    assert [a, b, PAD, PAD][..3] == [a, b, PAD] && [a, b, PAD][..2] == [a, b];
    assert TrailingPads([a, b]) == 0;
    assert TrailingPads([a, b, PAD]) == 1;
  }

  lemma {:induction false} SymbolsBack(data: Bytes)
    ensures DecodeGroups(Symbols(data)) == Some(data)
  {
    hide DecodeGroups, Quad, Symbol;
    var text := Encode64(data);
    EncodedPads(data);
    if data == [] {
      NoGroups();
    } else if |data| >= 3 {
      var quad, rest := Quad(data[0], data[1], data[2]), data[3..];
      SymbolsBack(rest);
      EncodedPads(rest);
      if rest == [] {
        QuadHasNoPad(data[0], data[1], data[2]);
        assert text == quad + [] && Symbols(data) == quad + Symbols(rest);
      } else {
        PadsOfSum(quad, Encode64(rest));
        assert Symbols(data) == quad + Symbols(rest);
      }
      ThreeBytes(data[0], data[1], data[2], Symbols(rest));
      assert data == [data[0], data[1], data[2]] + rest;
    } else if |data| == 1 {
      OnePad(text[0], text[1]);
      OneByte(data[0]);
      assert text == [text[0], text[1], PAD, PAD];
      assert Symbols(data) == text[..2] == [text[0], text[1]];
      assert data == [data[0]];
    } else {
      assert text[..3] == [text[0], text[1], text[2]];
      assert TrailingPads(text[..3]) == 0;
      TwoBytes(data[0], data[1]);
      assert text[3] == PAD && text[..|text| - 1] == text[..3];
      assert TrailingPads(text) == 1;
      assert data == [data[0], data[1]];
      assert Symbols(data) == text[..3];
    }
  }

  /** Decoding inverts encoding. */
  lemma EncodedBack(data: Bytes)
    ensures DecodeStrict(Encode64(data)) == Some(data)
  {
    EncodedPads(data);
    SymbolsBack(data);
  }

  /** A text is canonical exactly when it is the encoding of what it decodes to. */
  lemma CanonicalExactly(text: Bytes, data: Bytes)
    ensures Canonical64(text) == Some(data) <==> text == Encode64(data)
  {
    hide DecodeStrict, Encode64;
    EncodedBack(data);
  }

  // -------------------------------------------------------------------------------------- what strict decoding accepts

  lemma SymbolBack(b: Byte)
    requires Sextet(b).Some?
    ensures Symbol(Sextet(b).value) == b
  {
  }

  /** The pads that make whole groups of this many symbols. */
  function Padding(symbols: nat): Bytes {
    if symbols % 4 == 2 then [PAD, PAD] else if symbols % 4 == 3 then [PAD] else []
  }

  /** The bits of the last symbol that no byte takes up are zero. */
  predicate Zeroed(data: Bytes) {
    && (|data| % 4 == 2 ==> Sextet(data[|data| - 1]).Some? && Sextet(data[|data| - 1]).value % 16 == 0)
    && (|data| % 4 == 3 ==> Sextet(data[|data| - 1]).Some? && Sextet(data[|data| - 1]).value % 4 == 0)
  }

  /** A symbol with some low bits cleared is the symbol itself only when they were zero. */
  lemma Cleared(b: Byte, base: nat)
    requires Sextet(b).Some? && (base == 4 || base == 16)
    ensures Symbol(Sextet(b).value / base * base) == b <==> Sextet(b).value % base == 0
  {
    hide Symbol;
    SymbolBack(b);
    var n := Sextet(b).value;
    assert n / base * base + n % base == n && n / base * base < 64;
    assert Sextet(Symbol(n / base * base)) == Some(n / base * base);
  }

  lemma EncodeOne(p: nat, q: nat)
    requires p < 64 && q < 64
    ensures Encode64([p * 4 + q / 16]) == [Symbol(p), Symbol(q / 16 * 16), PAD, PAD]
  {
    hide Symbol;
    Mixed(p, q / 16, 4);
  }

  lemma EncodeTwo(p: nat, q: nat, r: nat)
    requires p < 64 && q < 64 && r < 64
    ensures Encode64([p * 4 + q / 16, q % 16 * 16 + r / 4]) == [Symbol(p), Symbol(q), Symbol(r / 4 * 4), PAD]
  {
    hide Symbol;
    Mixed(p, q / 16, 4);
    Mixed(q % 16, r / 4, 16);
    assert q / 16 * 16 + q % 16 == q;
  }

  lemma TwoSymbols(data: Bytes)
    requires |data| == 2 && DecodeGroups(data).Some?
    ensures Encode64(DecodeGroups(data).value) == data + Padding(2) <==> Zeroed(data)
  {
    hide Symbol, Sextet, Encode64;
    var p, q := Sextet(data[0]).value, Sextet(data[1]).value;
    SymbolBack(data[0]);
    Cleared(data[1], 16);
    EncodeOne(p, q);
    assert data + Padding(2) == [data[0], data[1], PAD, PAD];
  }

  lemma ThreeSymbols(data: Bytes)
    requires |data| == 3 && DecodeGroups(data).Some?
    ensures Encode64(DecodeGroups(data).value) == data + Padding(3) <==> Zeroed(data)
  {
    hide Symbol, Sextet, Encode64;
    var p, q, r := Sextet(data[0]).value, Sextet(data[1]).value, Sextet(data[2]).value;
    SymbolBack(data[0]);
    SymbolBack(data[1]);
    Cleared(data[2], 4);
    EncodeTwo(p, q, r);
    assert data + Padding(3) == [data[0], data[1], data[2], PAD];
  }

  lemma SameTails(x: Bytes, y: Bytes, z: Bytes)
    ensures x + y == x + z <==> y == z
  {
    if x + y == x + z { assert y == (x + y)[|x|..] && z == (x + z)[|x|..]; }
  }

  /** Four symbols come back from their three bytes. */
  lemma FourSymbols(data: Bytes)
    requires |data| >= 4
    requires Sextet(data[0]).Some? && Sextet(data[1]).Some? && Sextet(data[2]).Some? && Sextet(data[3]).Some?
    ensures var (p, q, r, s) := (Sextet(data[0]).value, Sextet(data[1]).value, Sextet(data[2]).value,
                                 Sextet(data[3]).value);
            Quad(p * 4 + q / 16, q % 16 * 16 + r / 4, r % 4 * 64 + s) == data[..4]
  {
    hide Symbol;
    var p, q, r, s := Sextet(data[0]).value, Sextet(data[1]).value, Sextet(data[2]).value, Sextet(data[3]).value;
    SymbolBack(data[0]);
    SymbolBack(data[1]);
    SymbolBack(data[2]);
    SymbolBack(data[3]);
    Mixed(p, q / 16, 4);
    Mixed(q % 16, r / 4, 16);
    assert (r % 4 * 64 + s) / 64 == r % 4 && (r % 4 * 64 + s) % 64 == s;
    assert q / 16 * 16 + q % 16 == q && r / 4 * 4 + r % 4 == r;
  }

  lemma NoSymbols()
    ensures Encode64([]) == [] && DecodeGroups([]) == Some([])
  {
  }

  lemma OneSymbol(data: Bytes)
    requires |data| == 1
    ensures DecodeGroups(data) == None
  {
  }

  /** The encoding of a whole group and the rest. */
  lemma GroupEncodes(data: Bytes)
    requires |data| >= 4 && DecodeGroups(data).Some?
    ensures DecodeGroups(data[4..]).Some?
    ensures Encode64(DecodeGroups(data).value) == data[..4] + Encode64(DecodeGroups(data[4..]).value)
  {
    hide Quad, Symbol, Sextet;
    FourSymbols(data);
    FirstGroup(data);
    var (whole, rest) := (DecodeGroups(data).value, DecodeGroups(data[4..]).value);
    assert whole[3..] == rest;
  }

  /** Symbols encode back from what they decode to if and only if their unused bits are zero. */
  lemma {:induction false} GroupsBack(data: Bytes)
    requires DecodeGroups(data).Some?
    ensures Encode64(DecodeGroups(data).value) == data + Padding(|data|) <==> Zeroed(data)
  {
    hide Quad, Symbol, Sextet, Encode64, DecodeGroups;
    if data == [] {
      NoSymbols();
    } else if |data| == 1 {
      OneSymbol(data);
    } else if |data| == 2 {
      TwoSymbols(data);
    } else if |data| == 3 {
      ThreeSymbols(data);
    } else {
      var rest := data[4..];
      GroupEncodes(data);
      GroupsBack(rest);
      assert data + Padding(|data|) == data[..4] + (rest + Padding(|rest|));
      SameTails(data[..4], Encode64(DecodeGroups(rest).value), rest + Padding(|rest|));
    }
  }

  /** The unused bits of a padded text are zero. */
  predicate CleanTail(text: Bytes) {
    Zeroed(text[..|text| - TrailingPads(text)])
  }

  lemma {:induction false} PadsAre(text: Bytes)
    ensures forall i | |text| - TrailingPads(text) <= i < |text| :: text[i] == PAD
  {
    if text != [] && text[|text| - 1] == PAD { PadsAre(text[..|text| - 1]); }
  }

  /** A single last symbol is never decoded. */
  lemma {:induction false} NoSingle(data: Bytes)
    requires DecodeGroups(data).Some?
    ensures |data| % 4 != 1
  {
    hide Sextet;
    if |data| >= 4 { NoSingle(data[4..]); }
  }

  /** What strict decoding accepts encodes back to the text if and only if the text's unused bits are zero: after two
      pads the last symbol is a multiple of 16, after one a multiple of 4. */
  lemma StrictIsCanonicalExactly(text: Bytes)
    requires DecodeStrict(text).Some?
    ensures Encode64(DecodeStrict(text).value) == text <==> CleanTail(text)
  {
    hide DecodeGroups, Encode64;
    var pads := TrailingPads(text);
    var data := text[..|text| - pads];
    GroupsBack(data);
    PadsAre(text);
    NoSingle(data);
    assert text[|text| - pads..] == Padding(|data|);
    assert text == data + text[|text| - pads..];
  }

  /** Strict decoding alone is not canonical: "QR==" decodes to the byte "QQ==" encodes. */
  lemma StrictIsNotCanonical()
    ensures DecodeStrict([81, 82, PAD, PAD]) == Some([65]) && Encode64([65]) == [81, 81, PAD, PAD]
    ensures Canonical64([81, 82, PAD, PAD]) == None
  {
    OnePad(81, 82);
    assert [81, 82, PAD, PAD][..2] == [81, 82];
  }
}
