/**
 * The text form of a rendered frame: `return {v0,v1,...}`, the Lua chunk
 * that the audio monitor sends over the code channel (mled/mled.py:177-178).
 * Values are written with Python's `str` of a non-negative int, i.e. plain
 * decimal digits, and joined by single commas.
 *
 * `ParseLuaTable` is an independent reader of that text; the round trip
 * `ParseLuaTable(LuaCode(v)) == Some(v)` is what shows that the text holds
 * exactly the values of the frame, in order, and nothing else.
 */
module LuaTable {
  import opened Common

  predicate IsDigit(ch: char) { '0' <= ch <= '9' }

  predicate AllDigits(s: string) { forall i :: 0 <= i < |s| ==> IsDigit(s[i]) }

  function DigitChar(d: nat): (ch: char)
    requires d < 10
    ensures IsDigit(ch) && ch as int - '0' as int == d
  {
    ('0' as int + d) as char
  }

  /** Python's `str(n)` for a non-negative int: decimal digits, most significant first. */
  function Decimal(n: nat): (s: string)
    ensures |s| >= 1 && AllDigits(s)
  {
    if n < 10 then [DigitChar(n)] else Decimal(n / 10) + [DigitChar(n % 10)]
  }

  /** The value of a string of decimal digits. */
  function DecimalValue(s: string): nat
    requires AllDigits(s)
  {
    if s == [] then 0
    else DecimalValue(s[..|s| - 1]) * 10 + (s[|s| - 1] as int - '0' as int)
  }

  lemma {:induction false} DecimalRoundTrip(n: nat)
    ensures DecimalValue(Decimal(n)) == n
  {
    if n >= 10 {
      var s := Decimal(n);
      assert s[..|s| - 1] == Decimal(n / 10);
      DecimalRoundTrip(n / 10);
    }
  }

  /** `",".join(parts)`: it starts with the first part, followed by a comma when there are more. */
  function JoinCommas(parts: seq<string>): (s: string)
    ensures |parts| >= 1 ==> |s| >= |parts[0]| && s[..|parts[0]|] == parts[0]
    ensures |parts| >= 2 ==> |s| > |parts[0]| && s[|parts[0]|] == ','
  {
    if |parts| == 0 then ""
    else if |parts| == 1 then parts[0]
    else parts[0] + "," + JoinCommas(parts[1..])
  }

  /** Index of the first comma of `s`, when there is one. */
  function FirstComma(s: string): (i: nat)
    requires ',' in s
    ensures i < |s| && s[i] == ',' && ',' !in s[..i]
  {
    if s[0] == ',' then 0
    else
      assert ',' in s[1..] by { var k :| 0 <= k < |s| && s[k] == ','; assert s[1..][k - 1] == ','; }
      var j := FirstComma(s[1..]);
      assert s[..j + 1] == [s[0]] + s[1..][..j];
      j + 1
  }

  /** `s.split(",")` */
  function SplitCommas(s: string): (parts: seq<string>)
    ensures |parts| >= 1
    decreases |s|
  {
    if ',' !in s then [s]
    else
      var i := FirstComma(s);
      [s[..i]] + SplitCommas(s[i + 1..])
  }

  predicate NoComma(parts: seq<string>)
  {
    forall i :: 0 <= i < |parts| ==> ',' !in parts[i]
  }

  /** With more than one part and no comma inside a part, the first comma ends the first part. */
  lemma FirstCommaOfJoin(parts: seq<string>)
    requires |parts| >= 2 && NoComma(parts)
    ensures var s := JoinCommas(parts);
            ',' in s && FirstComma(s) == |parts[0]| && s[|parts[0]| + 1..] == JoinCommas(parts[1..])
  {
    var s := JoinCommas(parts);
    var p := parts[0];
    assert s == p + "," + JoinCommas(parts[1..]);
    assert s[|p|] == ',';
    assert ',' !in p;
    assert s[..|p|] == p;
    assert FirstComma(s) == |p|;
  }

  lemma {:induction false} SplitJoin(parts: seq<string>)
    requires |parts| >= 1 && NoComma(parts)
    ensures SplitCommas(JoinCommas(parts)) == parts
  {
    if |parts| == 1 {
      assert ',' !in parts[0];
    } else {
      FirstCommaOfJoin(parts);
      assert NoComma(parts[1..]) by {
        forall i | 0 <= i < |parts| - 1 ensures ',' !in parts[1..][i] {
          assert parts[1..][i] == parts[i + 1];
        }
      }
      SplitJoin(parts[1..]);
      var s := JoinCommas(parts);
      assert s[..FirstComma(s)] == parts[0];
      assert SplitCommas(s) == [parts[0]] + parts[1..];
    }
  }

  /** `map(str, values)` */
  function Decimals(values: seq<nat>): seq<string>
  {
    seq(|values|, i requires 0 <= i < |values| => Decimal(values[i]))
  }

  const Prefix: string := "return {"

  /** `f"return {{{','.join(map(str, values))}}}"` (mled/mled.py:177-178) */
  function LuaCode(values: seq<nat>): (code: string)
    ensures |code| > |Prefix| && code[..|Prefix|] == Prefix && code[|code| - 1] == '}'
  {
    Prefix + JoinCommas(Decimals(values)) + "}"
  }

  /**
   * Reads `return {d,d,...,d}` back into its values; `None` for any text that
   * is not of that exact form (a missing prefix or brace, an empty or
   * non-digit field).
   */
  function ParseLuaTable(code: string): (r: Option<seq<nat>>)
    ensures r.Some? ==> |code| > |Prefix| && code[..|Prefix|] == Prefix && code[|code| - 1] == '}'
    ensures r.Some? ==> (r.value == [] <==> |code| == |Prefix| + 1)
  {
    if |code| < |Prefix| + 1 || code[..|Prefix|] != Prefix || code[|code| - 1] != '}' then None
    else
      var body := code[|Prefix|..|code| - 1];
      if body == "" then Some([])
      else
        var fields := SplitCommas(body);
        if forall i :: 0 <= i < |fields| ==> fields[i] != "" && AllDigits(fields[i]) then
          Some(seq(|fields|, i requires 0 <= i < |fields| => DecimalValue(fields[i])))
        else None
  }

  /**
   * The text of a frame is read back as exactly that frame: as many
   * comma-separated decimal integers as the frame has values, in order.
   */
  lemma ParseLuaCode(values: seq<nat>)
    ensures ParseLuaTable(LuaCode(values)) == Some(values)
  {
    var code := LuaCode(values);
    var parts := Decimals(values);
    var body := code[|Prefix|..|code| - 1];
    assert body == JoinCommas(parts);
    if values != [] {
      assert NoComma(parts);
      SplitJoin(parts);
      assert body != "" by { JoinNonEmpty(parts); }
      var fields := SplitCommas(body);
      assert fields == parts;
      forall i | 0 <= i < |values| ensures DecimalValue(fields[i]) == values[i] {
        DecimalRoundTrip(values[i]);
      }
      assert seq(|fields|, i requires 0 <= i < |fields| => DecimalValue(fields[i])) == values;
    }
  }

  lemma JoinNonEmpty(parts: seq<string>)
    requires |parts| >= 1 && parts[0] != ""
    ensures JoinCommas(parts) != ""
  {
  }
}
