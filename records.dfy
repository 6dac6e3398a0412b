/** Turning one received line into a sweep record (main.py lines 141-152 and 164-166).

    A line is decoded to text, skipped when the text starts with `#`, stripped of
    surrounding whitespace and split on commas; it is skipped when it has fewer
    than seven fields, or when field 2 (start frequency), field 4 (bin width) or
    any of fields 6.. (powers in dB) is not a number. A skipped line raises
    nothing that reaches the caller: the next line is handled as if it had not
    been there. */
module Records {
  import opened Wrappers
  import opened Demux

  /** Text decoding of a line (`bytes.decode()`); `None` is a decoding error. */
  type Decoder = Bytes -> Option<string>

  /** Python's `float(text)` on a field; `None` is the `ValueError` it raises. */
  type NumberParser = string -> Option<real>

  /** One sweep record: its first sample's frequency (Hz), the spacing of its
      samples (Hz) and the power of each sample (dB). */
  datatype Sweep = Sweep(startFreq: real, binWidth: real, powers: seq<real>)

  const MinFields: nat := 7

  /** The characters Python's `str.strip()` removes (those for which `str.isspace()` holds). */
  predicate IsSpace(c: char)
  {
    var n := c as int;
    n == 0x20 || 0x09 <= n <= 0x0D || 0x1C <= n <= 0x1F || n == 0x85 || n == 0xA0
    || n == 0x1680 || 0x2000 <= n <= 0x200A || n == 0x2028 || n == 0x2029
    || n == 0x202F || n == 0x205F || n == 0x3000
  }

  /** The text with its leading whitespace removed: a suffix of the text that does
      not start with whitespace, everything cut off being whitespace. */
  function TrimStart(s: string): (r: string)
    ensures |r| <= |s| && r == s[|s| - |r|..]
    ensures r == [] || !IsSpace(r[0])
    ensures forall i :: 0 <= i < |s| - |r| ==> IsSpace(s[i])
  {
    if s != [] && IsSpace(s[0]) then TrimStart(s[1..]) else s
  }

  /** The text with its trailing whitespace removed: a prefix of the text that does
      not end with whitespace, everything cut off being whitespace. */
  function TrimEnd(s: string): (r: string)
    ensures |r| <= |s| && r == s[..|r|]
    ensures r == [] || !IsSpace(r[|r| - 1])
    ensures forall i :: |r| <= i < |s| ==> IsSpace(s[i])
  {
    if s != [] && IsSpace(s[|s| - 1]) then TrimEnd(s[..|s| - 1]) else s
  }

  /** Python's `str.strip()`. */
  function Strip(s: string): string
  {
    TrimEnd(TrimStart(s))
  }

  /** The comma-separated fields of a line's text (`text.strip().split(',')`). */
  function Fields(text: string): seq<string>
  {
    Split(Strip(text), ',')
  }

  /** Python's `text.startswith('#')`, on the text as decoded (not stripped). */
  predicate IsComment(text: string)
  {
    |text| > 0 && text[0] == '#'
  }

  /** `list(map(float, fields))`: every field converted, or nothing at all as soon
      as one field fails. */
  function ParseAll(fields: seq<string>, toFloat: NumberParser): (r: Option<seq<real>>)
    ensures r.Some? <==> forall i :: 0 <= i < |fields| ==> toFloat(fields[i]).Some?
    ensures r.Some? ==> |r.value| == |fields|
    ensures r.Some? ==> forall i :: 0 <= i < |fields| ==> Some(r.value[i]) == toFloat(fields[i])
  {
    if fields == [] then Some([])
    else
      match (toFloat(fields[0]), ParseAll(fields[1..], toFloat))
      case (Some(x), Some(xs)) => Some([x] + xs)
      case _ => None
  }

  /** The record a received line holds, or `None` when the line is skipped. */
  function ParseLine(line: Bytes, decode: Decoder, toFloat: NumberParser): (r: Option<Sweep>)
    ensures r.Some? ==> decode(line).Some? && !IsComment(decode(line).value)
    ensures r.Some? ==> |r.value.powers| + 6 == |Fields(decode(line).value)|
  {
    match decode(line)
    case None => None
    case Some(text) =>
      if IsComment(text) then None
      else
        var parts := Fields(text);
        if |parts| < MinFields then None
        else
          match (toFloat(parts[2]), toFloat(parts[4]), ParseAll(parts[6..], toFloat))
          case (Some(start), Some(width), Some(powers)) => Some(Sweep(start, width, powers))
          case _ => None
  }

  /** A line whose text is empty or all whitespace (the empty line between two
      newlines, say) has a single field, so it gives no record. */
  lemma BlankSkipped(line: Bytes, decode: Decoder, toFloat: NumberParser)
    requires decode(line).Some?
    requires forall i :: 0 <= i < |decode(line).value| ==> IsSpace(decode(line).value[i])
    ensures |Fields(decode(line).value)| == 1
    ensures ParseLine(line, decode, toFloat) == None
  {
  }

  /** A field that is not a number among field 2, field 4 and fields 6.. */
  predicate HasBadNumber(f: seq<string>, toFloat: NumberParser)
    requires |f| >= MinFields
  {
    toFloat(f[2]).None? || toFloat(f[4]).None? || exists i :: 6 <= i < |f| && toFloat(f[i]).None?
  }

  /** The skip rules, in both directions: a line gives no record exactly when it
      cannot be decoded, or its text starts with `#`, or its stripped text has
      fewer than seven comma-separated fields, or one of field 2, field 4 and
      fields 6.. is not a number. */
  lemma SkippedExactly(line: Bytes, decode: Decoder, toFloat: NumberParser)
    ensures ParseLine(line, decode, toFloat) == None
      <==> || decode(line).None?
           || IsComment(decode(line).value)
           || |Fields(decode(line).value)| < MinFields
           || HasBadNumber(Fields(decode(line).value), toFloat)
  {
  }

  /** What an accepted line holds: field 2 as start frequency, field 4 as bin
      width and fields 6.. as powers, in order. */
  lemma AcceptedRecord(line: Bytes, decode: Decoder, toFloat: NumberParser)
    requires ParseLine(line, decode, toFloat).Some?
    ensures var f := Fields(decode(line).value);
      var sw := ParseLine(line, decode, toFloat).value;
      && Some(sw.startFreq) == toFloat(f[2])
      && Some(sw.binWidth) == toFloat(f[4])
      && |sw.powers| == |f| - 6
      && forall i :: 6 <= i < |f| ==> Some(sw.powers[i - 6]) == toFloat(f[i])
  {
  }
}
