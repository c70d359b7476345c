/** The text form of a list of serialized transactions: lower-case hex, joined by a separator outside the hex
    alphabet. */
module HexCodec {
  import opened Utxo

  const SEPARATOR: char := '_'

  // ----- One transaction

  function Digit(n: nat): char
    requires n < 16
  {
    if n < 10 then '0' + n as char else 'a' + (n - 10) as char
  }

  /** The value of a hex digit of either case. */
  function DigitValue(c: char): Option<nat> {
    if '0' <= c <= '9' then Some((c - '0') as nat)
    else if 'a' <= c <= 'f' then Some((c - 'a') as nat + 10)
    else if 'A' <= c <= 'F' then Some((c - 'A') as nat + 10)
    else None
  }

  function Hex(tx: seq<byte>): string {
    if tx == [] then "" else [Digit(tx[0] as nat / 16), Digit(tx[0] as nat % 16)] + Hex(tx[1..])
  }

  /** None when the length is odd or a character is no hex digit. */
  function Unhex(text: string): Option<seq<byte>> {
    if text == "" then Some([])
    else if |text| == 1 then None
    else
      var high, low, rest := DigitValue(text[0]), DigitValue(text[1]), Unhex(text[2..]);
      if high.Some? && low.Some? && rest.Some?
      then ByteRange(high.value, low.value); Some([(16 * high.value + low.value) as byte] + rest.value)
      else None
  }

  lemma ByteRange(high: nat, low: nat)
    requires high < 16 && low < 16
    ensures 16 * high + low < 256
  {
  }

  // ----- A list of transactions

  function Joined(txs: seq<seq<byte>>): string
    requires |txs| > 0
  {
    if |txs| == 1 then Hex(txs[0]) else Hex(txs[0]) + [SEPARATOR] + Joined(txs[1..])
  }

  function Split(text: string): (pieces: seq<string>)
    ensures |pieces| > 0
  {
    if text == "" then [""]
    else
      var rest := Split(text[1..]);
      if text[0] == SEPARATOR then [""] + rest else [[text[0]] + rest[0]] + rest[1..]
  }

  function UnhexAll(pieces: seq<string>): Option<seq<seq<byte>>> {
    if pieces == [] then Some([])
    else
      var first, rest := Unhex(pieces[0]), UnhexAll(pieces[1..]);
      if first.Some? && rest.Some? then Some([first.value] + rest.value) else None
  }

  function Decoded(text: string): Option<seq<seq<byte>>> {
    UnhexAll(Split(text))
  }

  // ----- The encoder fills its buffer exactly

  lemma {:induction false} HexSnoc(tx: seq<byte>, k: nat)
    requires k < |tx|
    ensures Hex(tx[..k+1]) == Hex(tx[..k]) + [Digit(tx[k] as nat / 16), Digit(tx[k] as nat % 16)]
  {
    if k == 0 {
      assert tx[..1] == [tx[0]] && tx[..1][1..] == [] && tx[..0] == [];
    } else {
      HexSnoc(tx[1..], k - 1);
      assert tx[..k+1][1..] == tx[1..][..k] && tx[..k][1..] == tx[1..][..k-1];
    }
  }

  lemma {:induction false} HexLength(tx: seq<byte>)
    ensures |Hex(tx)| == 2 * |tx|
  {
    if tx != [] {
      HexLength(tx[1..]);
    }
  }

  lemma {:induction false} JoinedSnoc(txs: seq<seq<byte>>, tx: seq<byte>)
    requires |txs| > 0
    ensures Joined(txs + [tx]) == Joined(txs) + [SEPARATOR] + Hex(tx)
  {
    if |txs| == 1 {
      assert (txs + [tx])[1..] == [tx];
    } else {
      JoinedSnoc(txs[1..], tx);
      assert (txs + [tx])[1..] == txs[1..] + [tx];
    }
  }

  /** The text of the first `k` transactions. */
  function Prefix(txs: seq<seq<byte>>, k: nat): string
    requires k <= |txs|
  {
    if k == 0 then "" else Joined(txs[..k])
  }

  lemma PrefixStep(txs: seq<seq<byte>>, k: nat)
    requires k < |txs|
    ensures Prefix(txs, k + 1) == Prefix(txs, k) + (if k > 0 then [SEPARATOR] else "") + Hex(txs[k])
  {
    assert txs[..k+1] == txs[..k] + [txs[k]];
    if k > 0 {
      JoinedSnoc(txs[..k], txs[k]);
    }
  }

  lemma {:induction false} PrefixFits(txs: seq<seq<byte>>, k: nat)
    requires k <= |txs|
    ensures |Prefix(txs, k)| <= |Prefix(txs, |txs|)|
    decreases |txs| - k
  {
    if k < |txs| {
      PrefixStep(txs, k);
      PrefixFits(txs, k + 1);
    }
  }

  /** Writes the digits of `tx` at `offset`. */
  method EncodeAt(buf: array<char>, offset: nat, tx: seq<byte>) returns (n: nat)
    requires offset + 2 * |tx| <= buf.Length
    modifies buf
    ensures n == 2 * |tx|
    ensures buf[..offset + n] == old(buf[..offset]) + Hex(tx)
  {
    for k := 0 to |tx|
      invariant |Hex(tx[..k])| == 2 * k
      invariant buf[..offset + 2 * k] == old(buf[..offset]) + Hex(tx[..k])
    {
      HexSnoc(tx, k);
      ghost var done := buf[..offset + 2 * k];
      buf[offset + 2 * k] := Digit(tx[k] as nat / 16);
      buf[offset + 2 * k + 1] := Digit(tx[k] as nat % 16);
      assert buf[..offset + 2 * (k + 1)] == done + [Digit(tx[k] as nat / 16), Digit(tx[k] as nat % 16)];
    }
    assert tx[..|tx|] == tx;
    n := 2 * |tx|;
  }

  /** The length the encoder allocates is the length of its text. */
  method TotalHexLength(txs: seq<seq<byte>>) returns (total: nat)
    requires |txs| > 0
    ensures total == |Joined(txs)|
  {
    var digits := 0;
    for k := 0 to |txs|
      invariant digits == |Prefix(txs, k)| - (if k > 0 then k - 1 else 0)
    {
      PrefixStep(txs, k);
      HexLength(txs[k]);
      digits := digits + 2 * |txs[k]|;
    }
    assert txs[..|txs|] == txs;
    total := digits + |txs| - 1;
  }

  /** Writes transaction `i`, after a separator unless it is the first. */
  method EncodeNext(buf: array<char>, offset: nat, txs: seq<seq<byte>>, i: nat) returns (offset': nat)
    requires i < |txs| && |Prefix(txs, i + 1)| <= buf.Length
    requires offset == |Prefix(txs, i)| <= buf.Length && buf[..offset] == Prefix(txs, i)
    modifies buf
    ensures offset' == |Prefix(txs, i + 1)| && buf[..offset'] == Prefix(txs, i + 1)
  {
    PrefixStep(txs, i);
    HexLength(txs[i]);
    ghost var done := buf[..offset];
    offset' := offset;
    if i > 0 {
      buf[offset'] := '_';
      offset' := offset' + 1;
      assert buf[..offset'] == done + [SEPARATOR];
    }
    var n := EncodeAt(buf, offset', txs[i]);
    offset' := offset' + n;
  }

  /** None for the empty list, for which the source asks for a buffer of length -1 and panics. */
  method EncodeTransactionsToHex(txs: seq<seq<byte>>) returns (text: Option<string>)
    ensures text.None? <==> txs == []
    ensures text.Some? ==> text.value == Joined(txs)
  {
    if txs == [] {
      return None;
    }
    var total := TotalHexLength(txs);
    var buf := new char[total];
    var offset := 0;
    assert txs[..|txs|] == txs;
    for i := 0 to |txs|
      invariant offset == |Prefix(txs, i)| <= total
      invariant buf[..offset] == Prefix(txs, i)
    {
      PrefixFits(txs, i + 1);
      offset := EncodeNext(buf, offset, txs, i);
    }
    return Some(buf[..]);
  }

  method DecodeTransactionsFromHex(text: string) returns (txs: Option<seq<seq<byte>>>)
    ensures txs == Decoded(text)
  {
    var pieces := Split(text);
    var decoded: seq<seq<byte>> := [];
    assert pieces[0..] == pieces;
    assert Decoded(text).Some? ==> [] + Decoded(text).value == Decoded(text).value;
    for i := 0 to |pieces|
      invariant Decoded(text) == Prepended(decoded, UnhexAll(pieces[i..]))
    {
      var tx := Unhex(pieces[i]);
      assert pieces[i..][0] == pieces[i] && pieces[i..][1..] == pieces[i+1..];
      if tx.None? {
        return None;
      }
      ghost var rest := UnhexAll(pieces[i+1..]);
      assert rest.Some? ==> decoded + ([tx.value] + rest.value) == decoded + [tx.value] + rest.value;
      decoded := decoded + [tx.value];
    }
    assert pieces[|pieces|..] == [] && decoded + [] == decoded;
    return Some(decoded);
  }

  function Prepended(txs: seq<seq<byte>>, rest: Option<seq<seq<byte>>>): Option<seq<seq<byte>>> {
    if rest.Some? then Some(txs + rest.value) else None
  }

  // ----- Round trips

  lemma DigitRoundTrip(n: nat)
    requires n < 16
    ensures DigitValue(Digit(n)) == Some(n) && Digit(n) != SEPARATOR
  {
  }

  lemma {:induction false} UnhexHex(tx: seq<byte>)
    ensures Unhex(Hex(tx)) == Some(tx)
    ensures SEPARATOR !in Hex(tx)
  {
    if tx != [] {
      UnhexHex(tx[1..]);
      DigitRoundTrip(tx[0] as nat / 16);
      DigitRoundTrip(tx[0] as nat % 16);
      assert Hex(tx)[2..] == Hex(tx[1..]);
      assert [tx[0]] + tx[1..] == tx;
    }
  }

  lemma {:induction false} SplitPiece(piece: string)
    requires SEPARATOR !in piece
    ensures Split(piece) == [piece]
  {
    if piece != "" {
      SplitPiece(piece[1..]);
      assert [piece[0]] + piece[1..] == piece;
    }
  }

  lemma {:induction false} SplitAfterPiece(piece: string, rest: string)
    requires SEPARATOR !in piece
    ensures Split(piece + [SEPARATOR] + rest) == [piece] + Split(rest)
  {
    var text := piece + [SEPARATOR] + rest;
    if piece == "" {
      assert text[1..] == rest;
    } else {
      SplitAfterPiece(piece[1..], rest);
      assert text[1..] == piece[1..] + [SEPARATOR] + rest;
      assert [piece[0]] + piece[1..] == piece;
    }
  }

  /** Decoding what was encoded gives back every list. */
  lemma {:induction false} DecodeEncoded(txs: seq<seq<byte>>)
    requires |txs| > 0
    ensures Decoded(Joined(txs)) == Some(txs)
  {
    UnhexHex(txs[0]);
    if |txs| == 1 {
      SplitPiece(Hex(txs[0]));
      var pieces := [Hex(txs[0])];
      assert pieces[1..] == [] && UnhexAll(pieces[1..]) == Some([]);
      assert [txs[0]] + [] == txs;
    } else {
      SplitAfterPiece(Hex(txs[0]), Joined(txs[1..]));
      DecodeEncoded(txs[1..]);
      assert Split(Joined(txs))[1..] == Split(Joined(txs[1..]));
      assert [txs[0]] + txs[1..] == txs;
    }
  }

  /** Hex digits of either case are the same digit. */
  function Lower(c: char): char {
    if 'A' <= c <= 'F' then 'a' + (c - 'A') else c
  }

  function LowerAll(text: string): (r: string)
    ensures |r| == |text|
  {
    if text == "" then "" else [Lower(text[0])] + LowerAll(text[1..])
  }

  lemma DigitOfValue(c: char)
    requires DigitValue(c).Some?
    ensures DigitValue(c).value < 16 && Digit(DigitValue(c).value) == Lower(c)
  {
  }

  lemma LowerAllTwo(text: string)
    requires |text| > 1
    ensures LowerAll(text) == [Lower(text[0]), Lower(text[1])] + LowerAll(text[2..])
  {
  }

  lemma {:induction false} UnhexLower(text: string)
    ensures Unhex(LowerAll(text)) == Unhex(text)
  {
    if |text| > 1 {
      UnhexLower(text[2..]);
      LowerAllTwo(text);
      assert LowerAll(text)[2..] == LowerAll(text[2..]);
    }
  }

  lemma {:induction false} HexUnhex(text: string)
    requires Unhex(text).Some?
    ensures Hex(Unhex(text).value) == LowerAll(text)
  {
    if |text| > 1 {
      HexUnhex(text[2..]);
      LowerAllTwo(text);
      DigitOfValue(text[0]);
      DigitOfValue(text[1]);
      var high, low := DigitValue(text[0]).value, DigitValue(text[1]).value;
      assert (16 * high + low) / 16 == high && (16 * high + low) % 16 == low;
      assert Unhex(text).value[1..] == Unhex(text[2..]).value;
    }
  }

  function LowerEach(pieces: seq<string>): (r: seq<string>)
    ensures |r| == |pieces|
  {
    if pieces == [] then [] else [LowerAll(pieces[0])] + LowerEach(pieces[1..])
  }

  lemma {:induction false} SplitLower(text: string)
    ensures Split(LowerAll(text)) == LowerEach(Split(text))
  {
    if text == "" {
      assert [""][1..] == [];
    } else {
      SplitLower(text[1..]);
      assert LowerAll(text)[1..] == LowerAll(text[1..]);
      var rest, pieces := Split(text[1..]), Split(text);
      if text[0] == SEPARATOR {
        assert pieces[1..] == rest;
      } else {
        assert ([text[0]] + rest[0])[1..] == rest[0];
        assert pieces[1..] == rest[1..];
      }
    }
  }

  /** The pieces joined again by separators, in lower case. */
  function LowerJoined(pieces: seq<string>): string
    requires |pieces| > 0
  {
    if |pieces| == 1 then LowerAll(pieces[0]) else LowerAll(pieces[0]) + [SEPARATOR] + LowerJoined(pieces[1..])
  }

  lemma {:induction false} SplitLosesNothing(text: string)
    ensures LowerJoined(Split(text)) == LowerAll(text)
  {
    if text != "" {
      SplitLosesNothing(text[1..]);
      var rest, pieces := Split(text[1..]), Split(text);
      if text[0] == SEPARATOR {
        assert pieces[1..] == rest;
      } else {
        assert ([text[0]] + rest[0])[1..] == rest[0];
        assert pieces[1..] == rest[1..];
      }
    }
  }

  lemma {:induction false} JoinedUnhex(pieces: seq<string>)
    requires |pieces| > 0 && UnhexAll(pieces).Some?
    ensures |UnhexAll(pieces).value| == |pieces|
    ensures Joined(UnhexAll(pieces).value) == LowerJoined(pieces)
  {
    HexUnhex(pieces[0]);
    if |pieces| > 1 {
      JoinedUnhex(pieces[1..]);
      assert UnhexAll(pieces).value[1..] == UnhexAll(pieces[1..]).value;
    }
  }

  lemma {:induction false} UnhexAllLower(pieces: seq<string>)
    ensures UnhexAll(LowerEach(pieces)) == UnhexAll(pieces)
  {
    if pieces != [] {
      UnhexLower(pieces[0]);
      UnhexAllLower(pieces[1..]);
      assert LowerEach(pieces)[1..] == LowerEach(pieces[1..]);
    }
  }

  /** A text decodes to a list exactly when, up to the case of its digits, it is that list's encoding: the decoder
      accepts nothing else and no two lists share a text. */
  lemma DecodedMeaning(text: string, txs: seq<seq<byte>>)
    ensures Decoded(text) == Some(txs) <==> |txs| > 0 && Joined(txs) == LowerAll(text)
  {
    if Decoded(text) == Some(txs) {
      JoinedUnhex(Split(text));
      SplitLosesNothing(text);
    }
    if |txs| > 0 && Joined(txs) == LowerAll(text) {
      DecodeEncoded(txs);
      SplitLower(text);
      UnhexAllLower(Split(text));
    }
  }
}
