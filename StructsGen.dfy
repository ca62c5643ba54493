/**
 * The register-structure generator (util/structs_gen.py), without its
 * command line, hjson loading, template substitution and file output.
 *
 * For each register of a peripheral description it emits one bit-field
 * entry per field (a C type chosen from the field's width, the field's
 * name and its width), pads the register to 32 bits with a reserved
 * field, and for each field that carries an enum emits the C enum
 * definition as text. The struct entries are kept as structured values
 * (type, name, width); the column padding the script applies to them is
 * cosmetic. The enum text is kept character for character.
 *
 * Python exceptions are the `Err` results: `ValueError` from int(),
 * `KeyError` from a missing dictionary key, `TypeError` from formatting
 * the None that select_type returns for an unsupported width.
 */
module StructsGen {
  import opened CTypes

  /** Bit length of each register. */
  const RegLength: int := 32
  const ReservedName: string := "_reserved"
  const TabSpaces: string := "  "
  /** The column width enum entry names are padded to. */
  const EnumNameWidth: nat := 15

  datatype PyError = ValueError | KeyError | TypeError
  datatype Result<T> = Ok(value: T) | Err(error: PyError)

  /* ---------------------------------------------------------------------- */
  /* Decimal text                                                            */
  /* ---------------------------------------------------------------------- */

  predicate IsDigit(c: char)
  {
    '0' <= c <= '9'
  }

  predicate AllDigits(s: string)
    decreases |s|
  {
    |s| == 0 || (AllDigits(s[..|s| - 1]) && IsDigit(s[|s| - 1]))
  }

  function DigitChar(d: nat): (c: char)
    requires d < 10
    ensures IsDigit(c)
  {
    ('0' as int + d) as char
  }

  /** The value of a string of decimal digits, most significant first. */
  function DigitsValue(s: string): int
    decreases |s|
  {
    if |s| == 0 then 0 else DigitsValue(s[..|s| - 1]) * 10 + (s[|s| - 1] as int - '0' as int)
  }

  /** str(n) for a non-negative n: its decimal digits, without leading zeros. */
  function NatToString(n: nat): (s: string)
    ensures |s| > 0 && AllDigits(s)
    ensures |s| > 1 ==> s[0] != '0'
    decreases n
  {
    if n < 10 then [DigitChar(n)] else NatToString(n / 10) + [DigitChar(n % 10)]
  }

  /**
   * int(s) for the strings this model accepts: an optional sign followed by
   * at least one ASCII digit; anything else raises ValueError.
   */
  function ParseInt(s: string): (r: Result<int>)
    ensures r.Ok? ==> |s| > 0
  {
    var negative := |s| > 0 && s[0] == '-';
    var digits := if |s| > 0 && (s[0] == '-' || s[0] == '+') then s[1..] else s;
    if |digits| == 0 || !AllDigits(digits) then Err(ValueError)
    else if negative then Ok(-DigitsValue(digits))
    else Ok(DigitsValue(digits))
  }

  lemma {:induction false} DigitsValueOfNatToString(n: nat)
    ensures DigitsValue(NatToString(n)) == n
    decreases n
  {
    var s := NatToString(n);
    if n >= 10 {
      DigitsValueOfNatToString(n / 10);
      assert s[..|s| - 1] == NatToString(n / 10);
    }
  }

  /** int() of a digit string is its value. */
  lemma ParseIntOfDigits(s: string)
    requires |s| > 0 && AllDigits(s)
    ensures ParseInt(s) == Ok(DigitsValue(s))
  {
    DigitAt(s, 0);
  }

  /** int() of a digit string after a sign is its value, negated for '-'. */
  lemma ParseIntOfSignedDigits(s: string)
    requires |s| > 0 && AllDigits(s)
    ensures ParseInt("-" + s) == Ok(-DigitsValue(s))
    ensures ParseInt("+" + s) == Ok(DigitsValue(s))
  {
    assert ("-" + s)[1..] == s;
    assert ("+" + s)[1..] == s;
  }

  /** int(str(n)) == n, with and without a sign in front. */
  lemma ParseIntOfNatToString(n: nat)
    ensures ParseInt(NatToString(n)) == Ok(n)
    ensures ParseInt("-" + NatToString(n)) == Ok(-(n as int))
    ensures ParseInt("+" + NatToString(n)) == Ok(n)
  {
    DigitsValueOfNatToString(n);
    ParseIntOfDigits(NatToString(n));
    ParseIntOfSignedDigits(NatToString(n));
  }

  /* ---------------------------------------------------------------------- */
  /* str.split                                                               */
  /* ---------------------------------------------------------------------- */

  /** str.find: the first position of `c` in `s`. */
  function IndexOf(s: string, c: char): (i: nat)
    requires c in s
    ensures i < |s| && s[i] == c
  {
    if s[0] == c then 0 else
      assert c in s[1..] by { var k :| 0 <= k < |s| && s[k] == c; assert s[1..][k - 1] == c; }
      IndexOf(s[1..], c) + 1
  }

  /** str.find gives the first occurrence: nothing before it is `c`. */
  lemma {:induction false} IndexOfIsFirst(s: string, c: char)
    requires c in s
    ensures c !in s[..IndexOf(s, c)]
    decreases |s|
  {
    if s[0] != c {
      assert c in s[1..] by { var k :| 0 <= k < |s| && s[k] == c; assert s[1..][k - 1] == c; }
      var j := IndexOf(s[1..], c);
      IndexOfIsFirst(s[1..], c);
      assert s[..j + 1] == [s[0]] + s[1..][..j];
    }
  }

  /** s.split(sep) for a one-character separator. */
  function Split(s: string, sep: char): (parts: seq<string>)
    ensures |parts| >= 1
    ensures sep in s ==> |parts| >= 2
    ensures sep !in s ==> parts == [s]
    decreases |s|
  {
    if sep !in s then [s]
    else
      var i := IndexOf(s, sep);
      [s[..i]] + Split(s[i + 1..], sep)
  }

  /** No part of a split contains the separator. */
  lemma {:induction false} SplitPartsLackSeparator(s: string, sep: char)
    ensures forall i :: 0 <= i < |Split(s, sep)| ==> sep !in Split(s, sep)[i]
    decreases |s|
  {
    if sep in s {
      var i := IndexOf(s, sep);
      IndexOfIsFirst(s, sep);
      SplitPartsLackSeparator(s[i + 1..], sep);
      assert Split(s, sep) == [s[..i]] + Split(s[i + 1..], sep);
    }
  }

  /** sep.join(parts) */
  function JoinWith(parts: seq<string>, sep: char): string
    requires |parts| >= 1
    decreases |parts|
  {
    if |parts| == 1 then parts[0] else parts[0] + [sep] + JoinWith(parts[1..], sep)
  }

  /** Splitting and joining again gives back the string. */
  lemma {:induction false} SplitJoin(s: string, sep: char)
    ensures JoinWith(Split(s, sep), sep) == s
    decreases |s|
  {
    if sep in s {
      var i := IndexOf(s, sep);
      var rest := s[i + 1..];
      SplitJoin(rest, sep);
      JoinWithCons(s[..i], Split(rest, sep), sep);
      assert s == s[..i] + [sep] + rest;
    }
  }

  lemma JoinWithCons(head: string, tail: seq<string>, sep: char)
    requires |tail| >= 1
    ensures JoinWith([head] + tail, sep) == head + [sep] + JoinWith(tail, sep)
  {
    assert ([head] + tail)[1..] == tail;
  }

  /* ---------------------------------------------------------------------- */
  /* count_bits and select_type                                              */
  /* ---------------------------------------------------------------------- */

  /**
   * count_bits: "end:start" gives int(end) - int(start) + 1, a string
   * without ':' gives 1.
   */
  function CountBits(bitsRange: string): Result<int>
  {
    if ':' in bitsRange then RangeWidth(Split(bitsRange, ':')) else Ok(1)
  }

  /** int(end) - int(start) + 1 for the parts "end" and "start" of a split range. */
  function RangeWidth(parts: seq<string>): Result<int>
    requires |parts| >= 2
  {
    var startBit := ParseInt(parts[1]);
    var endBit := ParseInt(parts[0]);
    if endBit.Err? || startBit.Err? then Err(ValueError)
    else Ok(endBit.value - startBit.value + 1)
  }


  /** Every character of a digit string is a digit. */
  lemma {:induction false} DigitAt(s: string, k: nat)
    requires AllDigits(s) && k < |s|
    ensures IsDigit(s[k])
    decreases |s|
  {
    if k < |s| - 1 {
      DigitAt(s[..|s| - 1], k);
    }
  }

  lemma DigitsHaveNoColon(s: string)
    requires AllDigits(s)
    ensures ':' !in s
  {
    forall k | 0 <= k < |s|
      ensures s[k] != ':'
    {
      DigitAt(s, k);
    }
  }

  /** Splitting "a:b" on ':' gives a and b when neither contains ':'. */
  lemma {:induction false} SplitPair(a: string, b: string)
    requires ':' !in a && ':' !in b
    ensures Split(a + ":" + b, ':') == [a, b]
  {
    var text := a + ":" + b;
    assert text[|a|] == ':';
    assert text[..|a|] == a;
    assert forall k :: 0 <= k < |a| ==> text[k] == a[k];
    var i := IndexOf(text, ':');
    IndexOfIsFirst(text, ':');
    assert i == |a|;
    assert text[i + 1..] == b;
  }

  /**
   * "end:start" counts int(end) - int(start) + 1 bits when both sides parse
   * and neither holds a ':'; "end" alone counts one bit.
   */
  lemma CountBitsOfParts(endText: string, startText: string, endBit: int, startBit: int)
    requires ':' !in endText && ':' !in startText
    requires ParseInt(endText) == Ok(endBit) && ParseInt(startText) == Ok(startBit)
    ensures CountBits(endText + ":" + startText) == Ok(endBit - startBit + 1)
    ensures CountBits(endText) == Ok(1)
  {
    CountBitsOfPair(endText, startText);
    RangeWidthOfParts(endText, startText, endBit, startBit);
  }

  /** "a:b" is counted from its two sides when neither contains ':'. */
  lemma CountBitsOfPair(a: string, b: string)
    requires ':' !in a && ':' !in b
    ensures CountBits(a + ":" + b) == RangeWidth([a, b])
  {
    var text := a + ":" + b;
    assert text[|a|] == ':';
    SplitPair(a, b);
  }

  lemma RangeWidthOfParts(endText: string, startText: string, endBit: int, startBit: int)
    requires ParseInt(endText) == Ok(endBit) && ParseInt(startText) == Ok(startBit)
    ensures RangeWidth([endText, startText]) == Ok(endBit - startBit + 1)
  {
  }

  /** A range written "e:s" counts e - s + 1 bits; a single index counts one. */
  lemma CountBitsOfRange(e: nat, s: nat)
    ensures CountBits(NatToString(e) + ":" + NatToString(s)) == Ok(e - s + 1)
    ensures CountBits(NatToString(e)) == Ok(1)
  {
    var es, ss := NatToString(e), NatToString(s);
    DigitsHaveNoColon(es);
    DigitsHaveNoColon(ss);
    DigitsValueOfNatToString(e);
    DigitsValueOfNatToString(s);
    ParseIntOfDigits(es);
    ParseIntOfDigits(ss);
    CountBitsOfParts(es, ss, e, s);
  }

  /** count_bits("7:0") == 8 */
  lemma CountBitsSevenToZero()
    ensures CountBits("7:0") == Ok(8)
  {
    assert NatToString(7) + ":" + NatToString(0) == "7:0";
    CountBitsOfRange(7, 0);
  }

  /** select_type: the smallest unsigned C type of 8, 16, 32 or 64 bits that holds the width. */
  function SelectType(amountOfBits: int): Option<string>
  {
    if 1 <= amountOfBits < 9 then Some("uint8_t")
    else if 9 <= amountOfBits < 17 then Some("uint16_t")
    else if 17 <= amountOfBits < 33 then Some("uint32_t")
    else if 33 <= amountOfBits < 65 then Some("uint64_t")
    else None
  }

  /** The C type name of an unsigned integer of `width` bits. */
  function UintName(width: nat): string
  {
    "uint" + NatToString(width) + "_t"
  }

  /**
   * select_type returns a type exactly for widths 1 to 64, and then the
   * narrowest of the four widths that holds the field: wide enough, and
   * the next narrower one would not be.
   */
  lemma {:induction false} SelectTypeIsNarrowestFit(amountOfBits: int)
    ensures SelectType(amountOfBits).Some? <==> 1 <= amountOfBits <= 64
    ensures SelectType(amountOfBits).Some? ==>
      exists w :: w in {8, 16, 32, 64} && SelectType(amountOfBits) == Some(UintName(w)) &&
        amountOfBits <= w && (w == 8 || amountOfBits > w / 2)
  {
    assert UintName(8) == "uint8_t";
    assert UintName(16) == "uint16_t";
    assert UintName(32) == "uint32_t";
    assert UintName(64) == "uint64_t";
    if 1 <= amountOfBits <= 8 {
      assert 8 in {8, 16, 32, 64};
    } else if 9 <= amountOfBits <= 16 {
      assert 16 in {8, 16, 32, 64};
    } else if 17 <= amountOfBits <= 32 {
      assert 32 in {8, 16, 32, 64};
    } else if 33 <= amountOfBits <= 64 {
      assert 64 in {8, 16, 32, 64};
    }
  }

  /* ---------------------------------------------------------------------- */
  /* generate_enum                                                           */
  /* ---------------------------------------------------------------------- */

  /** One entry of an hjson "enum" list: its name and its value text. */
  datatype EnumKey = EnumKey(name: string, value: string)

  function Spaces(n: nat): (s: string)
    ensures |s| == n && forall i :: 0 <= i < n ==> s[i] == ' '
  {
    if n == 0 then "" else Spaces(n - 1) + " "
  }

  /** format(s, "<width"): `s` left-aligned and padded with spaces to at least `width`. */
  function PadRight(s: string, width: nat): (p: string)
    ensures |p| == (if |s| >= width then |s| else width)
    ensures p[..|s|] == s && forall i :: |s| <= i < |p| ==> p[i] == ' '
  {
    if |s| >= width then s else s + Spaces(width - |s|)
  }

  function EnumStart(name: string): string
  {
    "typedef enum " + name + "_enum {\n"
  }

  function EnumEnd(name: string): string
  {
    "} " + name + "_t;\n\n"
  }

  function EnumEntry(k: EnumKey): string
  {
    TabSpaces + PadRight(k.name, EnumNameWidth) + "=" + TabSpaces + k.value
  }

  /** The entry line of each key, in order. */
  function EnumLines(keys: seq<EnumKey>): (lines: seq<string>)
    ensures |lines| == |keys|
  {
    seq(|keys|, i requires 0 <= i < |keys| => EnumEntry(keys[i]))
  }

  /** Lines joined by ",\n", in the order the loop appends them. */
  function JoinLines(lines: seq<string>): string
    decreases |lines|
  {
    if |lines| == 0 then ""
    else if |lines| == 1 then lines[0]
    else JoinLines(lines[..|lines| - 1]) + ",\n" + lines[|lines| - 1]
  }

  /** The text generate_enum returns. */
  function EnumText(keys: seq<EnumKey>, name: string): string
  {
    EnumStart(name) + JoinLines(EnumLines(keys)) + "\n" + EnumEnd(name)
  }

  /** Every line, each preceded by ",\n". */
  function SeparatedTail(lines: seq<string>): string
    decreases |lines|
  {
    if |lines| == 0 then "" else ",\n" + lines[0] + SeparatedTail(lines[1..])
  }

  lemma {:induction false} SeparatedTailSnoc(lines: seq<string>, line: string)
    ensures SeparatedTail(lines + [line]) == SeparatedTail(lines) + ",\n" + line
    decreases |lines|
  {
    if |lines| > 0 {
      assert (lines + [line])[1..] == lines[1..] + [line];
      SeparatedTailSnoc(lines[1..], line);
    }
  }

  /**
   * Joined lines are the first line followed by ",\n" and each further
   * line: the separator comes between lines only, never after the last.
   */
  lemma {:induction false} JoinLinesSeparatesLines(lines: seq<string>)
    requires |lines| > 0
    ensures JoinLines(lines) == lines[0] + SeparatedTail(lines[1..])
    decreases |lines|
  {
    if |lines| > 1 {
      var init, last := lines[..|lines| - 1], lines[|lines| - 1];
      JoinLinesSeparatesLines(init);
      assert init[1..] + [last] == lines[1..];
      SeparatedTailSnoc(init[1..], last);
    }
  }

  lemma JoinLinesSnoc(lines: seq<string>, line: string)
    ensures JoinLines(lines + [line]) == if |lines| == 0 then line else JoinLines(lines) + ",\n" + line
  {
    assert (lines + [line])[..|lines|] == lines;
  }

  lemma EnumLinesSnoc(keys: seq<EnumKey>, i: nat)
    requires i < |keys|
    ensures EnumLines(keys[..i + 1]) == EnumLines(keys[..i]) + [EnumEntry(keys[i])]
  {
  }

  /** Appending one more line to a text that ends in joined lines. */
  lemma AppendLine(prefix: string, lines: seq<string>, line: string)
    ensures prefix + JoinLines(lines + [line]) ==
      if |lines| == 0 then (prefix + JoinLines(lines)) + line
      else (prefix + JoinLines(lines)) + (",\n" + line)
  {
    JoinLinesSnoc(lines, line);
    if |lines| == 0 {
      assert prefix + JoinLines(lines) == prefix;
    } else {
      ConcatAssoc(JoinLines(lines), ",\n", line);
      ConcatAssoc(prefix, JoinLines(lines), ",\n" + line);
    }
  }

  lemma ConcatAssoc(a: string, b: string, c: string)
    ensures (a + b) + c == a + (b + c)
  {
  }

  /**
   * The enum text: the header, the first key's entry, ",\n" and the entry
   * of each further key, then a newline and the closing line; no
   * separator follows the last entry.
   */
  lemma EnumTextLayout(keys: seq<EnumKey>, name: string)
    requires |keys| > 0
    ensures EnumText(keys, name) ==
      EnumStart(name) + EnumEntry(keys[0]) + SeparatedTail(EnumLines(keys)[1..]) + "\n" + EnumEnd(name)
  {
    var lines := EnumLines(keys);
    JoinLinesSeparatesLines(lines);
    assert lines[0] == EnumEntry(keys[0]);
    ConcatAssoc(EnumStart(name), EnumEntry(keys[0]), SeparatedTail(lines[1..]));
  }

  /**
   * generate_enum: the header, then one entry per key with ",\n" between
   * entries (the first entry is told apart by the `first_entry` flag),
   * then a newline and the closing line.
   */
  method GenerateEnum(enumField: seq<EnumKey>, name: string) returns (e: string)
    ensures e == EnumText(enumField, name)
  {
    e := EnumStart(name);
    var firstEntry := true;
    var i := 0;
    while i < |enumField|
      invariant 0 <= i <= |enumField|
      invariant firstEntry <==> i == 0
      invariant e == EnumStart(name) + JoinLines(EnumLines(enumField[..i]))
    {
      var key := enumField[i];
      var line := TabSpaces + PadRight(key.name, EnumNameWidth) + "=" + TabSpaces + key.value;
      EnumLinesSnoc(enumField, i);
      AppendLine(EnumStart(name), EnumLines(enumField[..i]), line);
      if firstEntry {
        e := e + line;
        firstEntry := false;
      } else {
        e := e + (",\n" + line);
      }
      i := i + 1;
    }
    assert enumField[..i] == enumField;
    e := e + "\n";
    e := e + EnumEnd(name);
  }

  /* ---------------------------------------------------------------------- */
  /* The per-register loop of main                                           */
  /* ---------------------------------------------------------------------- */

  /** A field of a register: its "bits" text and the optional "name" and "enum" keys. */
  datatype Field = Field(bits: string, name: Option<string>, enumKeys: Option<seq<EnumKey>>)

  /** A register (or the body of a multireg): the optional "name" and its "fields". */
  datatype Register = Register(name: Option<string>, fields: seq<Field>)

  /** An entry of the "registers" list: a register, or a "multireg" wrapper around one. */
  datatype Element = Single(reg: Register) | Multireg(body: Register)

  /** One bit-field line of a register struct: C type, field name, width. */
  datatype StructEntry = StructEntry(ctype: string, name: string, bits: int)

  /** The bit-field struct of one register. */
  datatype RegStruct = RegStruct(name: string, entries: seq<StructEntry>)

  /** What the loop produces: the register structs and the enum definitions text. */
  datatype Generated = Generated(structs: seq<RegStruct>, enums: string)

  /** The outcome of one iteration of the field loop: entry, enum text and width. */
  type FieldResult = Result<(StructEntry, string, int)>

  /** The outcome of the field loop: entries, enum text and the bits counter. */
  type LoopResult = Result<(seq<StructEntry>, string, int)>

  /**
   * One iteration of the field loop: the struct entry, the enum text it
   * adds and its width, or the exception the iteration raises.
   */
  function FieldOutput(regName: string, f: Field): FieldResult
  {
    var fieldBits := CountBits(f.bits);
    if fieldBits.Err? then Err(fieldBits.error)
    else
      var n := fieldBits.value;
      var fieldType := SelectType(n);
      if f.enumKeys.Some? then
        if f.name.None? then Err(KeyError)
        else Ok((StructEntry(f.name.value + "_t", f.name.value, n), EnumText(f.enumKeys.value, f.name.value), n))
      else if fieldType.None? then Err(TypeError)
      else Ok((StructEntry(fieldType.value, if f.name.Some? then f.name.value else regName, n), "", n))
  }

  /** The outcome of each field's iteration, in field order. */
  function FieldResults(regName: string, fields: seq<Field>): (rs: seq<FieldResult>)
    ensures |rs| == |fields|
  {
    seq(|fields|, i requires 0 <= i < |fields| => FieldOutput(regName, fields[i]))
  }

  /**
   * The field loop over the outcomes of its iterations: the first
   * exception, or the entries, enum texts and widths accumulated in order.
   */
  function Accumulate(rs: seq<FieldResult>): LoopResult
    decreases |rs|
  {
    if |rs| == 0 then Ok(([], "", 0))
    else
      var before := Accumulate(rs[..|rs| - 1]);
      if before.Err? then before else AppendField(before.value, rs[|rs| - 1])
  }

  /** One iteration of the field loop: the field's exception, or its entry, enum text and width added. */
  function AppendField(acc: (seq<StructEntry>, string, int), last: FieldResult): LoopResult
  {
    if last.Err? then Err(last.error)
    else Ok((acc.0 + [last.value.0], acc.1 + last.value.1, acc.2 + last.value.2))
  }

  /** The field loop over `fields`: entries, enum text and the bits counter. */
  function FieldsOutput(regName: string, fields: seq<Field>): LoopResult
  {
    Accumulate(FieldResults(regName, fields))
  }

  lemma AccumulateStep(rs: seq<FieldResult>, j: nat)
    requires j < |rs| && Accumulate(rs[..j]).Ok?
    ensures Accumulate(rs[..j + 1]) == AppendField(Accumulate(rs[..j]).value, rs[j])
  {
    assert rs[..j + 1][..j] == rs[..j];
  }

  lemma {:induction false} AccumulateErrPersists(rs: seq<FieldResult>, k: nat)
    requires k <= |rs| && Accumulate(rs[..k]).Err?
    ensures Accumulate(rs) == Accumulate(rs[..k])
    decreases |rs| - k
  {
    if k < |rs| {
      assert rs[..k + 1][..k] == rs[..k];
      AccumulateErrPersists(rs, k + 1);
    } else {
      assert rs[..k] == rs;
    }
  }

  /** A loop that does not raise has one entry per iteration, the iteration's own entry. */
  lemma {:induction false} AccumulateEntries(rs: seq<FieldResult>)
    requires Accumulate(rs).Ok?
    ensures |Accumulate(rs).value.0| == |rs|
    ensures forall i :: 0 <= i < |rs| ==> rs[i].Ok? && Accumulate(rs).value.0[i] == rs[i].value.0
    decreases |rs|
  {
    if |rs| > 0 {
      var n := |rs|;
      var init := rs[..n - 1];
      AccumulateEntries(init);
      var before := Accumulate(init).value.0;
      var entries := Accumulate(rs).value.0;
      assert entries == before + [rs[n - 1].value.0];
      forall i | 0 <= i < n
        ensures rs[i].Ok? && entries[i] == rs[i].value.0
      {
        if i < n - 1 {
          assert entries[i] == before[i] && rs[i] == init[i];
        }
      }
    }
  }

  /** When each iteration's width is its entry's, the bits counter is the sum of the entries' widths. */
  lemma {:induction false} AccumulateCounts(rs: seq<FieldResult>)
    requires Accumulate(rs).Ok?
    requires forall i :: 0 <= i < |rs| && rs[i].Ok? ==> rs[i].value.0.bits == rs[i].value.2
    ensures Accumulate(rs).value.2 == SumBits(Accumulate(rs).value.0)
    decreases |rs|
  {
    if |rs| > 0 {
      var n := |rs|;
      var init := rs[..n - 1];
      assert forall i :: 0 <= i < |init| ==> init[i] == rs[i];
      AccumulateCounts(init);
      AccumulateEntries(init);
      var before := Accumulate(init).value;
      assert Accumulate(rs).value == (before.0 + [rs[n - 1].value.0], before.1 + rs[n - 1].value.1, before.2 + rs[n - 1].value.2);
      assert (before.0 + [rs[n - 1].value.0])[..n - 1] == before.0;
    }
  }

  /** The sum of the widths of struct entries. */
  function SumBits(entries: seq<StructEntry>): int
    decreases |entries|
  {
    if |entries| == 0 then 0 else SumBits(entries[..|entries| - 1]) + entries[|entries| - 1].bits
  }

  /**
   * The field loop emits one entry per field and its bits counter is the
   * sum of the entries' widths.
   */
  lemma FieldsOutputCounts(regName: string, fields: seq<Field>)
    requires FieldsOutput(regName, fields).Ok?
    ensures |FieldsOutput(regName, fields).value.0| == |fields|
    ensures FieldsOutput(regName, fields).value.2 == SumBits(FieldsOutput(regName, fields).value.0)
  {
    var rs := FieldResults(regName, fields);
    AccumulateEntries(rs);
    forall i | 0 <= i < |rs| && rs[i].Ok?
      ensures rs[i].value.0.bits == rs[i].value.2
    {
      assert rs[i] == FieldOutput(regName, fields[i]);
      FieldOutputShape(regName, fields[i]);
    }
    AccumulateCounts(rs);
  }

  /**
   * Each entry the field loop emits is named after its field, or after the
   * register when the field has no name.
   */
  lemma FieldsOutputNames(regName: string, fields: seq<Field>)
    requires FieldsOutput(regName, fields).Ok?
    ensures |FieldsOutput(regName, fields).value.0| == |fields|
    ensures forall i :: 0 <= i < |fields| ==>
      FieldsOutput(regName, fields).value.0[i].name == (if fields[i].name.Some? then fields[i].name.value else regName)
  {
    var rs := FieldResults(regName, fields);
    AccumulateEntries(rs);
    var entries := Accumulate(rs).value.0;
    forall i | 0 <= i < |fields|
      ensures entries[i].name == (if fields[i].name.Some? then fields[i].name.value else regName)
    {
      assert rs[i] == FieldOutput(regName, fields[i]);
      FieldOutputShape(regName, fields[i]);
    }
  }

  /**
   * A field that does not raise: its width is count_bits of its range; its
   * entry is named after the field, or the register; its type is
   * "<name>_t" for an enum field and select_type's otherwise; and only an
   * enum field contributes enum text, that of generate_enum.
   */
  lemma FieldOutputShape(regName: string, f: Field)
    requires FieldOutput(regName, f).Ok?
    ensures var (entry, enumText, n) := FieldOutput(regName, f).value;
      CountBits(f.bits) == Ok(n) && entry.bits == n &&
      entry.name == (if f.name.Some? then f.name.value else regName) &&
      (f.enumKeys.Some? ==> f.name.Some? && entry.ctype == f.name.value + "_t" &&
                            enumText == EnumText(f.enumKeys.value, f.name.value)) &&
      (f.enumKeys.None? ==> SelectType(n) == Some(entry.ctype) && enumText == "")
  {
  }

  /** count_bits raises nothing but the ValueError of int(). */
  lemma CountBitsRaisesValueError(bitsRange: string)
    ensures CountBits(bitsRange).Err? ==> CountBits(bitsRange).error == ValueError
  {
  }

  /**
   * The exceptions of one field, each exactly when the source raises it:
   * ValueError when its range does not parse, KeyError for an enum field
   * without a name, TypeError for a plain field whose width no C type holds.
   */
  lemma FieldOutputRaises(regName: string, f: Field)
    ensures var out, width := FieldOutput(regName, f), CountBits(f.bits);
      (out == Err(ValueError) <==> width.Err?) &&
      (out == Err(KeyError) <==> width.Ok? && f.enumKeys.Some? && f.name.None?) &&
      (out == Err(TypeError) <==> width.Ok? && f.enumKeys.None? && SelectType(width.value).None?)
  {
    CountBitsRaisesValueError(f.bits);
  }

  /**
   * A field that raises after fields that did not stops the loop: the
   * whole list raises that field's exception.
   */
  lemma FieldsOutputStopsAtRaise(regName: string, fields: seq<Field>, k: nat)
    requires k < |fields| && FieldsOutput(regName, fields[..k]).Ok? && FieldOutput(regName, fields[k]).Err?
    ensures FieldsOutput(regName, fields) == Err(FieldOutput(regName, fields[k]).error)
  {
    var rs := FieldResults(regName, fields);
    assert FieldResults(regName, fields[..k]) == rs[..k];
    AccumulateStep(rs, k);
    AccumulateErrPersists(rs, k + 1);
  }

  /**
   * One register: its fields, then a `_reserved` entry for the bits the
   * fields leave unused out of 32.
   */
  function RegisterOutput(name: string, fields: seq<Field>): Result<(RegStruct, string)>
  {
    var out := FieldsOutput(name, fields);
    if out.Err? then Err(out.error)
    else
      var (entries, enums, bitsCounter) := out.value;
      if bitsCounter < RegLength then
        var reservedBits := RegLength - bitsCounter;
        var reservedType := SelectType(reservedBits);
        if reservedType.None? then Err(TypeError)
        else Ok((RegStruct(name, entries + [StructEntry(reservedType.value, ReservedName, reservedBits)]), enums))
      else Ok((RegStruct(name, entries), enums))
  }

  /**
   * Reserved padding: when the fields use fewer than 32 bits, one
   * `_reserved` entry is appended and the widths then add up to exactly
   * 32; otherwise the entries are the fields' alone.
   */
  lemma {:induction false} ReservedPadding(name: string, fields: seq<Field>)
    requires RegisterOutput(name, fields).Ok?
    ensures var (entries, _, bitsCounter) := FieldsOutput(name, fields).value;
      var s := RegisterOutput(name, fields).value.0;
      (bitsCounter < RegLength ==>
        s.entries[..|entries|] == entries && |s.entries| == |entries| + 1 &&
        s.entries[|entries|].name == ReservedName && SumBits(s.entries) == RegLength) &&
      (bitsCounter >= RegLength ==> s.entries == entries)
  {
    FieldsOutputCounts(name, fields);
    var (entries, _, bitsCounter) := FieldsOutput(name, fields).value;
    var s := RegisterOutput(name, fields).value.0;
    if bitsCounter < RegLength {
      assert s.entries[..|s.entries| - 1] == entries;
    }
  }

  /** The register an element stands for, once a multireg wrapper is removed. */
  function Unwrap(e: Element): Register
  {
    match e
    case Single(r) => r
    case Multireg(r) => r
  }

  /** The loop over the "registers" list: elements without a name add nothing. */
  function GenerateAll(elements: seq<Element>): Result<Generated>
    decreases |elements|
  {
    if |elements| == 0 then Ok(Generated([], ""))
    else
      var before := GenerateAll(elements[..|elements| - 1]);
      var reg := Unwrap(elements[|elements| - 1]);
      if before.Err? then before
      else if reg.name.None? then before
      else
        var out := RegisterOutput(reg.name.value, reg.fields);
        if out.Err? then Err(out.error)
        else Ok(Generated(before.value.structs + [out.value.0], before.value.enums + out.value.1))
  }

  /** A register that raises ends the run with that exception. */
  lemma {:induction false} GenerateAllErrPersists(elements: seq<Element>, k: nat)
    requires k <= |elements| && GenerateAll(elements[..k]).Err?
    ensures GenerateAll(elements) == GenerateAll(elements[..k])
    decreases |elements| - k
  {
    if k < |elements| {
      assert elements[..k + 1][..k] == elements[..k];
      GenerateAllErrPersists(elements, k + 1);
    } else {
      assert elements[..k] == elements;
    }
  }

  /**
   * The named registers, in order, and nothing for the others: each struct
   * is named after a register that has a name.
   */
  lemma {:induction false} GenerateAllNamesRegisters(elements: seq<Element>)
    requires GenerateAll(elements).Ok?
    ensures |GenerateAll(elements).value.structs| == |NamedRegisters(elements)|
    ensures forall i :: 0 <= i < |NamedRegisters(elements)| ==>
      GenerateAll(elements).value.structs[i].name == NamedRegisters(elements)[i]
    decreases |elements|
  {
    if |elements| > 0 {
      var init := elements[..|elements| - 1];
      if GenerateAll(init).Err? {
        assert false;
      }
      GenerateAllNamesRegisters(init);
    }
  }

  /** The names of the registers that have one, multireg wrappers removed. */
  function NamedRegisters(elements: seq<Element>): seq<string>
    decreases |elements|
  {
    if |elements| == 0 then []
    else
      var reg := Unwrap(elements[|elements| - 1]);
      NamedRegisters(elements[..|elements| - 1]) + (if reg.name.Some? then [reg.name.value] else [])
  }

  /**
   * One iteration of the field loop: count_bits, select_type, the enum
   * (whose type name replaces the selected type), the field name, and the
   * exception the iteration raises.
   */
  method GenerateField(name: string, field: Field) returns (r: FieldResult)
    ensures r == FieldOutput(name, field)
  {
    var fieldBits := CountBits(field.bits);
    if fieldBits.Err? {
      return Err(fieldBits.error);
    }
    var fieldType := SelectType(fieldBits.value);
    var typeName;
    var enumText := "";
    if field.enumKeys.Some? {
      if field.name.None? {
        return Err(KeyError);
      }
      typeName := field.name.value + "_t";
      enumText := GenerateEnum(field.enumKeys.value, field.name.value);
    } else if fieldType.None? {
      return Err(TypeError);
    } else {
      typeName := fieldType.value;
    }
    var fieldName := if field.name.Some? then field.name.value else name;
    r := Ok((StructEntry(typeName, fieldName, fieldBits.value), enumText, fieldBits.value));
  }

  /**
   * The field loop of main for one register: the bits counter, one struct
   * entry per field and the enum text of the fields that have an enum.
   * A field that raises ends the run.
   */
  method GenerateFields(name: string, fields: seq<Field>) returns (r: LoopResult)
    ensures r == FieldsOutput(name, fields)
  {
    var entries: seq<StructEntry> := [];
    var bitsCounter := 0;
    var enums := "";
    ghost var rs := FieldResults(name, fields);
    var j := 0;
    while j < |fields|
      invariant 0 <= j <= |fields|
      invariant Accumulate(rs[..j]) == Ok((entries, enums, bitsCounter))
    {
      var out := GenerateField(name, fields[j]);
      assert out == rs[j];
      AccumulateStep(rs, j);
      if out.Err? {
        AccumulateErrPersists(rs, j + 1);
        return Err(out.error);
      }
      entries := entries + [out.value.0];
      enums := enums + out.value.1;
      bitsCounter := bitsCounter + out.value.2;
      j := j + 1;
    }
    assert rs[..j] == rs;
    r := Ok((entries, enums, bitsCounter));
  }

  /** One register: the field loop, then the reserved padding up to 32 bits. */
  method GenerateRegister(name: string, fields: seq<Field>) returns (r: Result<(RegStruct, string)>)
    ensures r == RegisterOutput(name, fields)
  {
    var out := GenerateFields(name, fields);
    if out.Err? {
      return Err(out.error);
    }
    var (entries, enums, bitsCounter) := out.value;
    if bitsCounter < RegLength {
      var reservedBits := RegLength - bitsCounter;
      var reservedType := SelectType(reservedBits);
      if reservedType.None? {
        return Err(TypeError);
      }
      entries := entries + [StructEntry(reservedType.value, ReservedName, reservedBits)];
    }
    r := Ok((RegStruct(name, entries), enums));
  }

  /**
   * The generation loop of main: each element (a multireg unwrapped) that
   * has a name becomes a register struct, and the enum texts are
   * concatenated. The first exception ends the run.
   */
  method GenerateStructs(elements: seq<Element>) returns (r: Result<Generated>)
    ensures r == GenerateAll(elements)
  {
    var structs: seq<RegStruct> := [];
    var enumsDefinitions := "";
    var i := 0;
    while i < |elements|
      invariant 0 <= i <= |elements|
      invariant GenerateAll(elements[..i]) == Ok(Generated(structs, enumsDefinitions))
    {
      assert elements[..i + 1][..i] == elements[..i];
      var elem := Unwrap(elements[i]);
      if elem.name.Some? {
        var out := GenerateRegister(elem.name.value, elem.fields);
        if out.Err? {
          GenerateAllErrPersists(elements, i + 1);
          return Err(out.error);
        }
        structs := structs + [out.value.0];
        enumsDefinitions := enumsDefinitions + out.value.1;
      }
      i := i + 1;
    }
    assert elements[..i] == elements;
    r := Ok(Generated(structs, enumsDefinitions));
  }
}
