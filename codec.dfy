/** The tagged value format `set` stores and `mget` reads back: a type tag byte,
    a payload, and a NUL terminator. */
module Codec {
  import opened Lua
  import opened CLib

  const TAG_TEXT: byte := 115    // 's'
  const TAG_NUMBER: byte := 110  // 'n'
  const TAG_BOOL: byte := 98     // 'b'
  const DIGIT_ZERO: byte := 48   // '0'
  const DIGIT_ONE: byte := 49    // '1'

  /** The C library's number/text conversions, which the model leaves abstract:
      `fixed` is what `printf("%f", x)` renders and `atof` what `atof` parses. */
  datatype NumberText = NumberText(fixed: Double -> Bytes, atof: Bytes -> Double)

  /** `%f` behaves as it does in C: it renders at least one character and never a NUL. */
  predicate Renders(nt: NumberText, x: Double)
  {
    |nt.fixed(x)| >= 1 && NulFree(nt.fixed(x))
  }

  /** Every value the binding writes ends with a zero byte. */
  predicate Terminated(blob: Bytes)
  {
    |blob| >= 1 && blob[|blob| - 1] == 0
  }

  predicate KnownTag(blob: Bytes)
    requires |blob| >= 1
  {
    blob[0] == TAG_TEXT || blob[0] == TAG_NUMBER || blob[0] == TAG_BOOL
  }

  /** The output `snprintf` is asked to produce for each kind: "s%s", "n%f" and "b%d". */
  function TextOutput(s: Bytes): Bytes { [TAG_TEXT] + CString(s) }

  function NumberOutput(nt: NumberText, x: Double): Bytes { [TAG_NUMBER] + nt.fixed(x) }

  function BoolOutput(b: bool): Bytes { [TAG_BOOL, if b then DIGIT_ONE else DIGIT_ZERO] }

  /** Text: a buffer of |s| + 2 bytes. */
  function TextBlob(s: Bytes): Bytes
  {
    Written(|s| + 2, TextOutput(s))
  }

  /** Number: the buffer is sized from the length of "%f" alone plus one, but receives "n%f". */
  function NumberBlob(nt: NumberText, x: Double): Bytes
  {
    Written(|nt.fixed(x)| + 1, NumberOutput(nt, x))
  }

  /** Boolean: a buffer of 3 bytes. */
  function BoolBlob(b: bool): Bytes
  {
    Written(3, BoolOutput(b))
  }

  /** The type switch of `set`: `None` for a value that is not a string, number or boolean. */
  function Encode(nt: NumberText, v: LuaValue): (r: Option<Bytes>)
    ensures r.Some? <==> v.Str? || v.Num? || v.Bool?
    ensures r.Some? ==> Terminated(r.value)
  {
    match v
    case Str(s) => Some(TextBlob(s))
    case Num(x) => Some(NumberBlob(nt, x))
    case Bool(b) => Some(BoolBlob(b))
    case _ => None
  }

  /** The tag switch of `mget`; an unknown tag reads as nil. */
  function Decode(nt: NumberText, blob: Bytes): (v: LuaValue)
    requires Terminated(blob)
    ensures v.Nil? <==> !KnownTag(blob)
    ensures v.Str? <==> blob[0] == TAG_TEXT
    ensures v.Num? <==> blob[0] == TAG_NUMBER
    ensures v.Bool? <==> blob[0] == TAG_BOOL
    ensures v.Str? ==> |v.bytes| == |blob| - 2 && v.bytes == blob[1..|blob| - 1]
    ensures v.Bool? ==> (v.truth <==> blob[1] == DIGIT_ONE)
  {
    if blob[0] == TAG_TEXT then Str(blob[1..|blob| - 1])
    else if blob[0] == TAG_NUMBER then Num(nt.atof(CString(blob[1..])))
    else if blob[0] == TAG_BOOL then Bool(blob[1] == DIGIT_ONE)
    else Nil
  }

  /** Text layout: tag, then the bytes `%s` copies (those before the first NUL),
      then zeros up to and including the last byte. */
  lemma TextLayout(s: Bytes)
    ensures var b := TextBlob(s);
      && |b| == |s| + 2
      && b[0] == TAG_TEXT
      && b[|s| + 1] == 0
      && b[1..|s| + 1] == CString(s) + Zeros(|s| - |CString(s)|)
      && (NulFree(s) ==> b[1..|s| + 1] == s)
  {
    var b := TextBlob(s);
    var c := CString(s);
    var out := TextOutput(s);
    assert |out| < |s| + 2;
    assert b[..|out|] == out;
    assert b[1..|c| + 1] == c by {
      forall i | 0 <= i < |c| ensures b[1 + i] == c[i] {
        assert b[1 + i] == b[..|out|][1 + i] == out[1 + i];
      }
    }
    assert b[1..|s| + 1] == CString(s) + Zeros(|s| - |CString(s)|);
    if NulFree(s) {
      NulFreeIsOwnCString(s);
    }
  }

  lemma {:induction false} NulFreeIsOwnCString(s: Bytes)
    requires NulFree(s)
    ensures CString(s) == s
  {
    if s != [] {
      NulFreeIsOwnCString(s[1..]);
    }
  }

  /** Decoding a text blob gives the string with everything after its first NUL zeroed,
      so a string comes back unchanged exactly when nothing but zeros follows its first NUL. */
  lemma TextRoundTrip(nt: NumberText, s: Bytes)
    ensures Decode(nt, TextBlob(s)) == Str(CString(s) + Zeros(|s| - |CString(s)|))
    ensures Decode(nt, TextBlob(s)) == Str(s) <==> s == CString(s) + Zeros(|s| - |CString(s)|)
    ensures NulFree(s) ==> Decode(nt, TextBlob(s)) == Str(s)
  {
    TextLayout(s);
  }

  /** A string with a NUL followed by any non-zero byte does not survive the round trip. */
  lemma TextWithEmbeddedNulIsAltered(nt: NumberText, s: Bytes, i: nat, j: nat)
    requires i < j < |s| && s[i] == 0 && s[j] != 0
    ensures Decode(nt, TextBlob(s)) != Str(s)
  {
    TextRoundTrip(nt, s);
    var c := CString(s);
    assert |c| <= i;
    var d := c + Zeros(|s| - |c|);
    assert d[j] == 0;
  }

  /** Boolean layout: exactly 'b', '1' or '0', NUL. */
  lemma BoolLayout(b: bool)
    ensures BoolBlob(b) == [TAG_BOOL, if b then DIGIT_ONE else DIGIT_ZERO, 0]
  {
    var blob := BoolBlob(b);
    assert blob[..2] == BoolOutput(b);
    assert blob == blob[..2] + [blob[2]];
  }

  /** Booleans, false included, come back exactly. */
  lemma BoolRoundTrip(nt: NumberText, b: bool)
    ensures Decode(nt, BoolBlob(b)) == Bool(b)
  {
    BoolLayout(b);
  }

  /** Number layout: with R the "%f" rendering, the blob has |R| + 1 bytes:
      'n', R without its last character, then NUL. */
  lemma NumberLayout(nt: NumberText, x: Double)
    ensures var r := nt.fixed(x);
      && |NumberBlob(nt, x)| == |r| + 1
      && (|r| >= 1 ==> NumberBlob(nt, x) == [TAG_NUMBER] + r[..|r| - 1] + [0])
      && (|r| == 0 ==> NumberBlob(nt, x) == [0])
  {
    var r := nt.fixed(x);
    var out := NumberOutput(nt, x);
    assert |out| == |r| + 1;
    if |r| >= 1 {
      assert out[..|r|] == [TAG_NUMBER] + r[..|r| - 1];
    }
  }

  /** A number decodes as `atof` applied to its rendering minus the dropped last digit. */
  lemma NumberRoundTrip(nt: NumberText, x: Double)
    requires Renders(nt, x)
    ensures var r := nt.fixed(x);
      Decode(nt, NumberBlob(nt, x)) == Num(nt.atof(r[..|r| - 1]))
  {
    var r := nt.fixed(x);
    NumberLayout(nt, x);
    var b := NumberBlob(nt, x);
    var p := r[..|r| - 1];
    assert b[1..] == p + [0];
    assert NulFree(p);
    CStringStopsAtNul(p);
  }

  lemma {:induction false} CStringStopsAtNul(p: Bytes)
    requires NulFree(p)
    ensures CString(p + [0]) == p
  {
    if p != [] {
      assert (p + [0])[1..] == p[1..] + [0];
      CStringStopsAtNul(p[1..]);
    }
  }

  /** The first byte of an encoding names the kind of value it holds. */
  lemma EncodingIsTagged(nt: NumberText, v: LuaValue)
    requires v.Str? || v.Bool? || (v.Num? && Renders(nt, v.number))
    ensures var b := Encode(nt, v).value;
      && KnownTag(b)
      && (b[0] == TAG_TEXT <==> v.Str?)
      && (b[0] == TAG_NUMBER <==> v.Num?)
      && (b[0] == TAG_BOOL <==> v.Bool?)
  {
    match v
    case Str(s) => TextLayout(s);
    case Num(x) => NumberLayout(nt, x);
    case Bool(b) => BoolLayout(b);
  }

  /** Decode inverts Encode on every boolean and every NUL-free string. */
  lemma RoundTrip(nt: NumberText, v: LuaValue)
    requires v.Bool? || (v.Str? && NulFree(v.bytes))
    ensures Decode(nt, Encode(nt, v).value) == v
  {
    match v
    case Str(s) => TextRoundTrip(nt, s);
    case Bool(b) => BoolRoundTrip(nt, b);
  }
}
