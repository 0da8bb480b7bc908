/**
 * The key map of the keystroke overlay (Keymap.cs): a line-oriented file of
 * `keys[^] = value` bindings. Blank lines and `//` comments are skipped; a
 * line that does not parse is ignored; a trailing `^` on the key part puts
 * the binding in the caps-lock table. Lookups take the first binding of the
 * key, the caps-lock table first when caps lock is on.
 */
module Keymaps {
  import opened Wrappers
  import opened FrameworkText
  import K = WinFormsKeys

  type Keys = K.Keys

  // ---------------------------------------------------------------------------
  // Enum.Parse(typeof(Keys), name, ignoreCase: true)

  /*
   * The parsing functions take the members of the enumeration being parsed
   * (K.Members for typeof(Keys)) as the table members: its names and
   * values, in declaration order.
   */

  /** The first member whose name equals name ignoring case, searching from index i. */
  function MemberFrom(members: seq<(string, Keys)>, name: string, i: nat): (r: Option<Keys>)
    requires i <= |members|
    ensures r.Some? ==> exists j :: i <= j < |members| && EqualsIgnoreCase(members[j].0, name) && members[j].1 == r.value
    ensures r.None? ==> forall j :: i <= j < |members| ==> !EqualsIgnoreCase(members[j].0, name)
    decreases |members| - i
  {
    if i == |members| then None
    else if EqualsIgnoreCase(members[i].0, name) then Some(members[i].1)
    else MemberFrom(members, name, i + 1)
  }

  /** The value of the member named name, ignoring case. */
  function MemberValue(members: seq<(string, Keys)>, name: string): Option<Keys>
  {
    MemberFrom(members, name, 0)
  }

  /** A name has a value exactly when some member is called that, ignoring case; the value is that member's. */
  lemma MemberValueSpec(members: seq<(string, Keys)>, name: string)
    ensures MemberValue(members, name).Some? <==> exists j :: 0 <= j < |members| && EqualsIgnoreCase(members[j].0, name)
    ensures MemberValue(members, name).Some? ==>
      exists j :: 0 <= j < |members| && EqualsIgnoreCase(members[j].0, name) && members[j].1 == MemberValue(members, name).value
  {
  }

  /** A literal without its sign. */
  function Magnitude(t: string): string
    requires t != []
  {
    if t[0] == '-' || t[0] == '+' then t[1..] else t
  }

  /**
   * Int32.Parse with NumberStyles.Integer of a trimmed string: an optional
   * sign and at least one decimal digit; the value of the digits, negated
   * after a minus sign.
   */
  function IntLiteral(t: string): (r: Option<int>)
    ensures r.Some? <==> t != [] && Magnitude(t) != [] && AllDigits(Magnitude(t))
    ensures r.Some? ==> r.value == if t[0] == '-' then -(DigitsValue(Magnitude(t)) as int) else DigitsValue(Magnitude(t))
    ensures r.Some? ==> IsAsciiDigit(t[0]) || t[0] == '-' || t[0] == '+'
  {
    if t == [] then None
    else
      var digits := Magnitude(t);
      if digits == [] || !AllDigits(digits) then None
      else
        assert IsAsciiDigit(digits[0]);
        var n: int := DigitsValue(digits);
        Some(if t[0] == '-' then -n else n)
  }

  /** The decimal text of a number, with or without a sign, reads back as that number. */
  lemma IntLiteralOfDecimal(n: nat)
    ensures IntLiteral(Decimal(n)) == Some(n)
    ensures IntLiteral("+" + Decimal(n)) == Some(n)
    ensures IntLiteral("-" + Decimal(n)) == Some(-(n as int))
  {
    var d := Decimal(n);
    DigitsValueOfDecimal(n);
    assert IsAsciiDigit(d[0]);
    assert ("+" + d)[1..] == d && ("-" + d)[1..] == d;
  }

  /** The 32-bit two's complement pattern of an Int32. */
  function Bits(v: int): Keys
    requires -0x8000_0000 <= v < 0x8000_0000
  {
    if v >= 0 then v as Keys else (v + 0x1_0000_0000) as Keys
  }

  /** Every bit of x is set in m. */
  predicate Covers(m: Keys, x: Keys) {
    x & m == x
  }

  /** The bitwise or of a list of key values (0 for none). */
  function OrOf(ks: seq<Keys>): Keys {
    if ks == [] then 0 else OrOf(ks[..|ks| - 1]) | ks[|ks| - 1]
  }

  /** The or of the values has every bit of each of them. */
  lemma {:induction false} OrOfCovers(ks: seq<Keys>)
    ensures forall i :: 0 <= i < |ks| ==> Covers(OrOf(ks), ks[i])
  {
    if ks != [] {
      var init := ks[..|ks| - 1];
      OrOfCovers(init);
      assert forall i :: 0 <= i < |ks| - 1 ==> init[i] == ks[i];
      OrCovers(ks, OrOf(init));
    }
  }

  /** Or-ing the last value into the or of the others keeps every value covered. */
  lemma OrCovers(ks: seq<Keys>, a: Keys)
    requires |ks| >= 1 && forall i :: 0 <= i < |ks| - 1 ==> Covers(a, ks[i])
    ensures forall i :: 0 <= i < |ks| ==> Covers(a | ks[|ks| - 1], ks[i])
  {
    var b := ks[|ks| - 1];
    forall i | 0 <= i < |ks|
      ensures Covers(a | b, ks[i])
    {
      if i < |ks| - 1 {
        OrKeeps(ks[i], a, b);
      } else {
        CoversSelf(b);
        OrKeeps(b, b, a);
      }
    }
  }

  lemma CoversSelf(x: Keys)
    ensures Covers(x, x)
  {
  }

  lemma OrKeeps(x: Keys, a: Keys, b: Keys)
    requires Covers(a, x)
    ensures Covers(a | b, x) && Covers(b | a, x)
  {
  }

  /** No bit outside a mask that holds every value gets into their or: it is the least such mask. */
  lemma {:induction false} OrOfLeast(ks: seq<Keys>, m: Keys)
    requires forall i :: 0 <= i < |ks| ==> Covers(m, ks[i])
    ensures Covers(m, OrOf(ks))
  {
    if ks != [] {
      var init, last := ks[..|ks| - 1], ks[|ks| - 1];
      assert forall i :: 0 <= i < |init| ==> init[i] == ks[i];
      OrOfLeast(init, m);
      OrOfSnoc(ks);
      OrWithin(OrOf(init), last, m);
    }
  }

  lemma OrOfSnoc(ks: seq<Keys>)
    requires ks != []
    ensures OrOf(ks) == OrOf(ks[..|ks| - 1]) | ks[|ks| - 1]
  {
  }

  lemma OrWithin(a: Keys, b: Keys, m: Keys)
    requires Covers(m, a) && Covers(m, b)
    ensures Covers(m, a | b)
  {
  }

  /** The values of a list of parsed values that all parsed. */
  function Values(vals: seq<Option<Keys>>): (ks: seq<Keys>)
    requires forall i :: 0 <= i < |vals| ==> vals[i].Some?
    ensures |ks| == |vals| && forall i :: 0 <= i < |vals| ==> vals[i] == Some(ks[i])
  {
    if vals == [] then []
    else
      var init := vals[..|vals| - 1];
      assert forall i :: 0 <= i < |init| ==> init[i] == vals[i];
      Values(init) + [vals[|vals| - 1].value]
  }

  /** Each trimmed piece of a comma-separated list looked up as a member name. */
  function LookupNames(members: seq<(string, Keys)>, parts: seq<string>): (r: seq<Option<Keys>>)
    ensures |r| == |parts|
    ensures forall i :: 0 <= i < |parts| ==> r[i] == MemberValue(members, Trim(parts[i]))
  {
    if parts == [] then [] else [MemberValue(members, Trim(parts[0]))] + LookupNames(members, parts[1..])
  }

  /** The or of a single value is that value. */
  lemma ValuesOfSingle(vals: seq<Option<Keys>>)
    requires |vals| == 1
    ensures vals[0].Some? ==> OrOf(Values(vals)) == vals[0].value
  {
    if vals[0].Some? {
      var x := vals[0].value;
      assert Values(vals) == [x];
      assert [x][..0] == [];
      assert OrOf([x]) == 0 | x;
      assert 0 | x == x;
    }
  }

  /** The values of all but the last, and the or of the values extended by the last. */
  lemma ValuesOfInit(vals: seq<Option<Keys>>)
    requires |vals| >= 2 && forall i :: 0 <= i < |vals| ==> vals[i].Some?
    ensures Values(vals[..|vals| - 1]) == Values(vals)[..|vals| - 1]
    ensures OrOf(Values(vals)) == OrOf(Values(vals[..|vals| - 1])) | vals[|vals| - 1].value
  {
    var init := vals[..|vals| - 1];
    var ks := Values(vals);
    assert forall i :: 0 <= i < |init| ==> init[i] == vals[i];
    assert ks == Values(init) + [vals[|vals| - 1].value];
    assert ks[..|ks| - 1] == Values(init);
    OrOfSnoc(ks);
  }

  /**
   * The or of a list of parsed values: an error for an empty list (as
   * Aggregate((a, b) => a | b) of nothing) and for any value that did not
   * parse.
   */
  function Aggregate(vals: seq<Option<Keys>>): (r: Option<Keys>)
    ensures r.Some? <==> vals != [] && forall i :: 0 <= i < |vals| ==> vals[i].Some?
  {
    if vals == [] then None
    else if |vals| == 1 then vals[0]
    else
      var init := vals[..|vals| - 1];
      var a := Aggregate(init);
      var b := vals[|vals| - 1];
      assert forall i :: 0 <= i < |init| ==> vals[i] == init[i];
      if a.Some? && b.Some? then Some(a.value | b.value) else None
  }

  /** The aggregate of values that all parsed is the or of the values. */
  lemma {:induction false} AggregateIsOr(vals: seq<Option<Keys>>)
    requires vals != [] && forall i :: 0 <= i < |vals| ==> vals[i].Some?
    ensures Aggregate(vals) == Some(OrOf(Values(vals)))
  {
    if |vals| == 1 {
      ValuesOfSingle(vals);
    } else {
      var init := vals[..|vals| - 1];
      assert forall i :: 0 <= i < |init| ==> init[i] == vals[i];
      AggregateIsOr(init);
      ValuesOfInit(vals);
      AggregateSnoc(vals);
    }
  }

  /** The aggregate of more than one value: the aggregate of all but the last or-ed with the last. */
  lemma AggregateSnoc(vals: seq<Option<Keys>>)
    requires |vals| >= 2 && forall i :: 0 <= i < |vals| ==> vals[i].Some?
    ensures Aggregate(vals) == Some(Aggregate(vals[..|vals| - 1]).value | vals[|vals| - 1].value)
  {
    assert forall i :: 0 <= i < |vals| - 1 ==> vals[..|vals| - 1][i] == vals[i];
  }

  /**
   * Enum.Parse of a Keys value, ignoring case. The string is trimmed; an
   * empty one is an error; one that starts with a digit or a sign and is an
   * integer literal is that number (an error when it does not fit in 32
   * bits); anything else is a comma-separated list of member names.
   */
  function ParseEnum(members: seq<(string, Keys)>, value: string): (r: Option<Keys>)
    ensures Trim(value) == [] ==> r == None
  {
    var t := Trim(value);
    if t == [] then None
    else match IntLiteral(t)
      case Some(v) => if -0x8000_0000 <= v < 0x8000_0000 then Some(Bits(v)) else None
      case None => Aggregate(LookupNames(members, SplitAll(t, ',')))
  }

  /** An integer literal parses exactly when it fits in 32 bits, to its two's complement pattern. */
  lemma ParseEnumOfInteger(members: seq<(string, Keys)>, value: string)
    requires Trim(value) != [] && IntLiteral(Trim(value)).Some?
    ensures ParseEnum(members, value).Some? <==> -0x8000_0000 <= IntLiteral(Trim(value)).value < 0x8000_0000
    ensures ParseEnum(members, value).Some? ==> ParseEnum(members, value).value == Bits(IntLiteral(Trim(value)).value)
  {
  }

  /**
   * A string that is no integer literal is a comma-separated list of names:
   * it parses exactly when every trimmed piece is a member name, to the or
   * of their values.
   */
  lemma ParseEnumOfNameList(members: seq<(string, Keys)>, value: string)
    requires Trim(value) != [] && IntLiteral(Trim(value)).None?
    ensures (forall i :: 0 <= i < |SplitAll(Trim(value), ',')| ==> MemberValue(members, Trim(SplitAll(Trim(value), ',')[i])).Some?) ==>
      ParseEnum(members, value).Some? &&
      ParseEnum(members, value).value == OrOf(Values(LookupNames(members, SplitAll(Trim(value), ','))))
    ensures forall i :: 0 <= i < |SplitAll(Trim(value), ',')| && MemberValue(members, Trim(SplitAll(Trim(value), ',')[i])).None? ==>
      ParseEnum(members, value).None?
  {
    var pieces := SplitAll(Trim(value), ',');
    var vals := LookupNames(members, pieces);
    assert ParseEnum(members, value) == Aggregate(vals);
    if forall i :: 0 <= i < |vals| ==> vals[i].Some? {
      AggregateIsOr(vals);
    }
  }

  /** A member name alone parses to the member's value. */
  lemma ParseEnumOfName(members: seq<(string, Keys)>, name: string, v: Keys)
    requires name != [] && 'A' <= AsciiUpper(name[0]) <= 'Z'
    requires forall i :: 0 <= i < |name| ==> !IsWhiteSpace(name[i]) && name[i] != ','
    requires MemberValue(members, name) == Some(v)
    ensures ParseEnum(members, name) == Some(v)
  {
    TrimOfTrimmed(name);
    assert IntLiteral(name).None?;
    SplitAllFree(name, ',');
    assert SplitAll(name, ',') == [name];
    assert LookupNames(members, [name]) == [Some(v)];
  }

  /** The Select(Trim).Select(Enum.Parse) stages over the '+'-separated names: each name parsed on its own. */
  function ParseNames(members: seq<(string, Keys)>, names: seq<string>): (r: seq<Option<Keys>>)
    ensures |r| == |names|
    ensures forall i :: 0 <= i < |names| ==> r[i] == ParseEnum(members, Trim(names[i]))
  {
    if names == [] then [] else [ParseEnum(members, Trim(names[0]))] + ParseNames(members, names[1..])
  }

  /**
   * The names of a key combination, each parsed on its own and or-ed: an
   * error when there is no name or one of them does not parse.
   */
  function CombineNames(members: seq<(string, Keys)>, names: seq<string>): Option<Keys> {
    Aggregate(ParseNames(members, names))
  }

  /** A combination parses exactly when it has a name and every name parses; its value is the or of theirs. */
  lemma CombineNamesSpec(members: seq<(string, Keys)>, names: seq<string>)
    ensures CombineNames(members, names).Some? <==>
      names != [] && forall i :: 0 <= i < |names| ==> ParseEnum(members, Trim(names[i])).Some?
    ensures CombineNames(members, names).Some? ==>
      CombineNames(members, names).value == OrOf(Values(ParseNames(members, names)))
  {
    var parsed := ParseNames(members, names);
    if names != [] && forall i :: 0 <= i < |parsed| ==> parsed[i].Some? {
      AggregateIsOr(parsed);
    }
  }

  // ---------------------------------------------------------------------------
  // One line

  datatype KeymapItem = KeymapItem(keys: Keys, value: string)

  /** What one line contributes: nothing (comment or blank), nothing (it does not parse), or a binding. */
  datatype Line = Comment | Malformed | Entry(capsLock: bool, item: KeymapItem)

  /** The key part with a trailing caps-lock marker removed. */
  function StripCaps(key: string): (r: (bool, string))
    requires key != []
    ensures r.0 <==> key[|key| - 1] == '^'
    ensures key == r.1 + (if r.0 then "^" else "")
  {
    if key[|key| - 1] == '^' then (true, key[..|key| - 1]) else (false, key)
  }

  /** The '+'-separated names of a key part, the caps-lock marker removed and empty names dropped. */
  function KeyNames(key: string): seq<string>
    requires key != []
  {
    SplitNonEmpty(StripCaps(key).1, '+')
  }

  /** A line that Parse skips: blank, or a `//` comment. */
  predicate IsCommentLine(line: string) {
    IsBlank(line) || StartsWith(line, "//")
  }

  /** A line whose first character is neither white space nor '/' is no comment. */
  lemma NotCommentLine(line: string)
    requires line != [] && !IsWhiteSpace(line[0]) && line[0] != '/'
    ensures !IsCommentLine(line)
  {
    if |line| >= 2 {
      assert line[..2][0] == line[0];
    }
  }

  /** One line of the key map file. */
  function ParseLine(members: seq<(string, Keys)>, line: string): (r: Line)
    ensures r == Comment <==> IsCommentLine(line)
    ensures r.Entry? <==> (!IsCommentLine(line) &&
      var split := SplitTwo(line, '=');
      |split| == 2 && CombineNames(members, KeyNames(split[0])).Some?)
    ensures r.Entry? ==> var split := SplitTwo(line, '=');
      |split| == 2 && split[0] != [] && r.item.value == Trim(split[1]) && (r.capsLock <==> split[0][|split[0]| - 1] == '^') &&
      r.item.keys == CombineNames(members, KeyNames(split[0])).value
    ensures !IsCommentLine(line) && |SplitTwo(line, '=')| != 2 ==> r == Malformed
  {
    if IsCommentLine(line) then Comment
    else
      var split := SplitTwo(line, '=');
      if |split| != 2 then Malformed
      else
        var key, value := split[0], split[1];
        assert key != [];
        ParseBindingParts(members, key, value)
  }

  /** A line that is no comment and splits into a key part and a value is parsed from those two parts. */
  lemma ParseLineOfSplit(members: seq<(string, Keys)>, line: string, key: string, value: string)
    requires !IsCommentLine(line) && SplitTwo(line, '=') == [key, value]
    ensures key != [] && ParseLine(members, line) == ParseBindingParts(members, key, value)
  {
  }

  /** The key part and the value part of a line that split in two. */
  function ParseBindingParts(members: seq<(string, Keys)>, key: string, value: string): (r: Line)
    requires key != []
    ensures r != Comment
    ensures r.Entry? <==> CombineNames(members, KeyNames(key)).Some?
    ensures r.Entry? ==> r.item.value == Trim(value) && (r.capsLock <==> key[|key| - 1] == '^')
    ensures r.Entry? ==> r.item.keys == CombineNames(members, KeyNames(key)).value
  {
    var (caps, keyPart) := StripCaps(key);
    match CombineNames(members, SplitNonEmpty(keyPart, '+'))
    case None => Malformed
    case Some(k) => Entry(caps, KeymapItem(k, Trim(value)))
  }

  /** The text of a binding of one named key. */
  function Binding(name: string, capsLock: bool, value: string): string {
    name + (if capsLock then "^" else "") + "=" + value
  }

  /** A plain name characters: no white space, no separator of the format. */
  predicate PlainName(name: string) {
    name != [] && 'A' <= AsciiUpper(name[0]) <= 'Z' &&
    forall i :: 0 <= i < |name| ==> !IsWhiteSpace(name[i]) && name[i] !in "=+,^"
  }

  /** A binding written out for a member name and a trimmed value parses back to that member and value. */
  lemma ParseBinding(members: seq<(string, Keys)>, name: string, capsLock: bool, value: string, v: Keys)
    requires PlainName(name) && MemberValue(members, name) == Some(v)
    requires value != [] && value[0] != '=' && Trim(value) == value
    ensures ParseLine(members, Binding(name, capsLock, value)) == Entry(capsLock, KeymapItem(v, value))
  {
    var key := name + (if capsLock then "^" else "");
    assert Free(name, '=');
    BindingSplits(members, name, capsLock, value);
    KeyPartParses(members, name, capsLock, v);
  }

  /** The text of a binding whose key part starts with a letter is no comment and splits into its key part and its value. */
  lemma BindingSplits(members: seq<(string, Keys)>, name: string, capsLock: bool, value: string)
    requires name != [] && 'A' <= AsciiUpper(name[0]) <= 'Z' && Free(name, '=')
    requires value != [] && value[0] != '='
    ensures ParseLine(members, Binding(name, capsLock, value)) ==
      ParseBindingParts(members, name + (if capsLock then "^" else ""), value)
  {
    var key := name + (if capsLock then "^" else "");
    var line := Binding(name, capsLock, value);
    assert line == key + Repeat('=', 1) + value;
    assert key[0] == name[0];
    assert Free(key, '=');
    SplitTwoOfPair(key, 1, value, '=');
    assert line[0] == name[0];
    NotCommentLine(line);
    ParseLineOfSplit(members, line, key, value);
  }

  /** The key part of a binding of one named key, with or without the marker, is that key. */
  lemma KeyPartParses(members: seq<(string, Keys)>, name: string, capsLock: bool, v: Keys)
    requires PlainName(name) && MemberValue(members, name) == Some(v)
    ensures forall value ::
      ParseBindingParts(members, name + (if capsLock then "^" else ""), value) == Entry(capsLock, KeymapItem(v, Trim(value)))
  {
    var key := name + (if capsLock then "^" else "");
    assert !capsLock ==> key == name;
    assert capsLock ==> key[..|key| - 1] == name;
    assert name[|name| - 1] != '^';
    assert StripCaps(key) == (capsLock, name);
    assert Free(name, '+');
    assert SplitNonEmpty(name, '+') == [name];
    TrimOfTrimmed(name);
    ParseEnumOfName(members, name, v);
    assert ParseNames(members, [name]) == [Some(v)];
    assert CombineNames(members, [name]) == Some(v);
  }

  /**
   * A combination of member names joined with '+' (Control+Shift=x), with
   * or without the marker, parses back to the or of the members' values.
   */
  lemma ParseCombination(members: seq<(string, Keys)>, names: seq<string>, vs: seq<Keys>, capsLock: bool, value: string)
    requires |names| >= 1 && |names| == |vs|
    requires forall i :: 0 <= i < |names| ==> PlainName(names[i]) && MemberValue(members, names[i]) == Some(vs[i])
    requires value != [] && value[0] != '=' && Trim(value) == value
    ensures ParseLine(members, Binding(Join(names, '+'), capsLock, value)) == Entry(capsLock, KeymapItem(OrOf(vs), value))
  {
    var text := Join(names, '+');
    CombinationText(names, capsLock);
    BindingSplits(members, text, capsLock, value);
    CombineMembers(members, names, vs);
  }

  /** Plain names joined with '+': a key part that starts with a letter and splits back into the names. */
  lemma CombinationText(names: seq<string>, capsLock: bool)
    requires |names| >= 1 && forall i :: 0 <= i < |names| ==> PlainName(names[i])
    ensures var text := Join(names, '+'); var key := text + (if capsLock then "^" else "");
      text != [] && 'A' <= AsciiUpper(text[0]) <= 'Z' && Free(text, '=') &&
      key != [] && (key[|key| - 1] == '^' <==> capsLock) && KeyNames(key) == names
  {
    var text := Join(names, '+');
    assert forall i :: 0 <= i < |names| ==> Free(names[i], '=') && Free(names[i], '^') && Free(names[i], '+');
    JoinFree(names, '+', '=');
    JoinFree(names, '+', '^');
    JoinStarts(names, '+');
    assert text[0] == names[0][0];
    var key := text + (if capsLock then "^" else "");
    assert !capsLock ==> key == text;
    assert capsLock ==> key[..|key| - 1] == text;
    assert text[|text| - 1] != '^';
    assert StripCaps(key) == (capsLock, text);
    SplitAllJoin(names, '+');
    NonEmptyOfNonEmpty(names);
  }

  /** Member names, each parsed on its own and or-ed, give the or of the members' values. */
  lemma CombineMembers(members: seq<(string, Keys)>, names: seq<string>, vs: seq<Keys>)
    requires |names| >= 1 && |names| == |vs|
    requires forall i :: 0 <= i < |names| ==> PlainName(names[i]) && MemberValue(members, names[i]) == Some(vs[i])
    ensures CombineNames(members, names) == Some(OrOf(vs))
  {
    var parsed := ParseNames(members, names);
    forall i | 0 <= i < |names|
      ensures parsed[i] == Some(vs[i])
    {
      PlainNameParses(members, names[i], vs[i]);
    }
    AggregateOfValues(parsed, vs);
  }

  /** Values that all parsed aggregate to their or. */
  lemma AggregateOfValues(vals: seq<Option<Keys>>, vs: seq<Keys>)
    requires |vals| == |vs| >= 1 && forall i :: 0 <= i < |vals| ==> vals[i] == Some(vs[i])
    ensures Aggregate(vals) == Some(OrOf(vs))
  {
    assert Values(vals) == vs;
    AggregateIsOr(vals);
  }

  lemma PlainNameParses(members: seq<(string, Keys)>, name: string, v: Keys)
    requires PlainName(name) && MemberValue(members, name) == Some(v)
    ensures ParseEnum(members, Trim(name)) == Some(v)
  {
    assert forall i :: 0 <= i < |name| ==> !IsWhiteSpace(name[i]) && name[i] != ',';
    TrimOfTrimmed(name);
    ParseEnumOfName(members, name, v);
  }

  /** A caps-lock marker on its own leaves no key name: the line is dropped. */
  lemma MarkerAloneIsMalformed(members: seq<(string, Keys)>)
    ensures ParseLine(members, "^=x") == Malformed
  {
    var line := "^=x";
    assert SplitTwo(line, '=') == ["^", "x"] by {
      assert line == "^" + Repeat('=', 1) + "x";
      SplitTwoOfPair("^", 1, "x", '=');
    }
    NotCommentLine(line);
    ParseLineOfSplit(members, line, "^", "x");
    assert StripCaps("^") == (true, []);
    assert CombineNames(members, SplitNonEmpty([], '+')) == None by {
      assert SplitNonEmpty([], '+') == [];
      assert ParseNames(members, []) == [];
    }
  }

  // ---------------------------------------------------------------------------
  // The whole file

  /** Every line of the file, parsed on its own. */
  function ParseAll(members: seq<(string, Keys)>, lines: seq<string>): (r: seq<Line>)
    ensures |r| == |lines|
    ensures forall i :: 0 <= i < |lines| ==> r[i] == ParseLine(members, lines[i])
  {
    Map(line => ParseLine(members, line), lines)
  }

  /** f applied to every element, in order. */
  function Map<A, B>(f: A -> B, s: seq<A>): (r: seq<B>)
    ensures |r| == |s| && forall i :: 0 <= i < |s| ==> r[i] == f(s[i])
  {
    if s == [] then [] else [f(s[0])] + Map(f, s[1..])
  }

  lemma {:induction false} MapAppend<A, B>(f: A -> B, a: seq<A>, b: seq<A>)
    ensures Map(f, a + b) == Map(f, a) + Map(f, b)
  {
    if a == [] {
      assert a + b == b;
    } else {
      var head, tail := [f(a[0])], Map(f, a[1..]);
      assert (a + b)[0] == a[0] && (a + b)[1..] == a[1..] + b;
      calc {
        Map(f, a + b);
        head + Map(f, a[1..] + b);
        { MapAppend(f, a[1..], b); }
        head + (tail + Map(f, b));
        head + tail + Map(f, b);
      }
    }
  }

  lemma ParseAllAppend(members: seq<(string, Keys)>, a: seq<string>, b: seq<string>)
    ensures ParseAll(members, a + b) == ParseAll(members, a) + ParseAll(members, b)
  {
    MapAppend(line => ParseLine(members, line), a, b);
  }

  /** The bindings among parsed lines, in order, that belong to the caps-lock table (capsLock) or the normal one. */
  function Pick(parsed: seq<Line>, capsLock: bool): seq<KeymapItem>
  {
    if parsed == [] then []
    else
      var rest := Pick(parsed[..|parsed| - 1], capsLock);
      match parsed[|parsed| - 1]
      case Entry(c, item) => if c == capsLock then rest + [item] else rest
      case _ => rest
  }

  /** The bindings of the lines, in file order, of the caps-lock table (capsLock) or the normal table. */
  function Entries(members: seq<(string, Keys)>, lines: seq<string>, capsLock: bool): seq<KeymapItem> {
    Pick(ParseAll(members, lines), capsLock)
  }

  lemma {:induction false} PickAppend(a: seq<Line>, b: seq<Line>, capsLock: bool)
    ensures Pick(a + b, capsLock) == Pick(a, capsLock) + Pick(b, capsLock)
    decreases |b|
  {
    if b == [] {
      assert a + b == a;
    } else {
      var b0 := b[..|b| - 1];
      PickAppend(a, b0, capsLock);
      assert (a + b)[..|a + b| - 1] == a + b0;
      assert (a + b)[|a + b| - 1] == b[|b| - 1];
    }
  }

  /** One more parsed line adds its binding, if it has one for this table, at the end. */
  lemma PickStep(parsed: seq<Line>, i: nat, capsLock: bool)
    requires i < |parsed|
    ensures Pick(parsed[..i + 1], capsLock) == Pick(parsed[..i], capsLock) +
      (if parsed[i].Entry? && parsed[i].capsLock == capsLock then [parsed[i].item] else [])
  {
    assert parsed[..i + 1][..i] == parsed[..i];
  }

  /** Bindings keep their file order: the table of two files one after the other is the two tables one after the other. */
  lemma EntriesAppend(members: seq<(string, Keys)>, a: seq<string>, b: seq<string>, capsLock: bool)
    ensures Entries(members, a + b, capsLock) == Entries(members, a, capsLock) + Entries(members, b, capsLock)
  {
    ParseAllAppend(members, a, b);
    PickAppend(ParseAll(members, a), ParseAll(members, b), capsLock);
  }

  lemma {:induction false} PickMembership(parsed: seq<Line>, capsLock: bool, item: KeymapItem)
    ensures item in Pick(parsed, capsLock) <==>
      exists i :: 0 <= i < |parsed| && parsed[i] == Entry(capsLock, item)
    decreases |parsed|
  {
    if parsed != [] {
      var init := parsed[..|parsed| - 1];
      PickMembership(init, capsLock, item);
      assert forall i :: 0 <= i < |init| ==> parsed[i] == init[i];
    }
  }

  /** An item is in a table exactly when some line parses to it with that table's flag. */
  lemma EntriesMembership(members: seq<(string, Keys)>, lines: seq<string>, capsLock: bool, item: KeymapItem)
    ensures item in Entries(members, lines, capsLock) <==>
      exists i :: 0 <= i < |lines| && ParseLine(members, lines[i]) == Entry(capsLock, item)
  {
    PickMembership(ParseAll(members, lines), capsLock, item);
  }

  /** The first binding of k, as List.Find returns it; None when k has no binding. */
  function FindFirst(items: seq<KeymapItem>, k: Keys): (r: Option<string>)
    ensures r.Some? <==> exists i :: 0 <= i < |items| && items[i].keys == k
    ensures r.Some? ==> exists i ::
      0 <= i < |items| && items[i].keys == k && items[i].value == r.value && forall j :: 0 <= j < i ==> items[j].keys != k
  {
    if items == [] then None
    else if items[0].keys == k then Some(items[0].value)
    else
      var r := FindFirst(items[1..], k);
      assert forall i :: 1 <= i < |items| ==> items[i] == items[1..][i - 1];
      r
  }

  /** The name shown for a modifier: its binding, or the given default when it has none. */
  function NameOr(items: seq<KeymapItem>, k: Keys, default: string): (r: string)
    ensures (exists i :: 0 <= i < |items| && items[i].keys == k) ==> r == FindFirst(items, k).value
    ensures (forall i :: 0 <= i < |items| ==> items[i].keys != k) ==> r == default
  {
    match FindFirst(items, k)
    case Some(v) => v
    case None => default
  }

  /**
   * The foreach loop of Parse over the parsed lines: each binding appended
   * to the list its marker selects.
   */
  method Tables(all: seq<Line>) returns (normal: seq<KeymapItem>, caps: seq<KeymapItem>)
    ensures normal == Pick(all, false) && caps == Pick(all, true)
  {
    normal, caps := [], [];
    for i := 0 to |all|
      invariant normal == Pick(all[..i], false)
      invariant caps == Pick(all[..i], true)
    {
      PickStep(all, i, false);
      PickStep(all, i, true);
      match all[i] {
        case Entry(c, item) =>
          if c { caps := caps + [item]; } else { normal := normal + [item]; }
        case _ =>
      }
    }
    assert all[..|all|] == all;
  }

  /** Reading a list through a null reference. */
  datatype Fault = NullReferenceException

  class Keymap {
    /** The normal table; None until a file has been parsed (the field is null). */
    var parsed: Option<seq<KeymapItem>>
    /** The caps-lock table; None until a file has been parsed. */
    var capsLocked: Option<seq<KeymapItem>>
    var control: string
    var shift: string
    var alt: string
    /** The members of Keys that Enum.Parse(typeof(Keys), ...) parses names against. */
    const members: seq<(string, Keys)>

    constructor ()
      ensures parsed == None && capsLocked == None
      ensures control == "Control" && shift == "Shift" && alt == "Alt"
      ensures members == K.Members
    {
      members := K.Members;
      parsed, capsLocked := None, None;
      control, shift, alt := "Control", "Shift", "Alt";
    }

    /**
     * The value bound to k: with caps lock, the first caps-lock binding,
     * falling back to the first normal binding; None when neither has one.
     */
    function Find(k: Keys, capsLock: bool): (r: Result<Option<string>, Fault>)
      reads this
      ensures parsed.Some? && capsLocked.Some? ==> r.Ok?
      ensures r.Err? <==> if capsLock then capsLocked.None? || (FindFirst(capsLocked.value, k).None? && parsed.None?) else parsed.None?
      ensures capsLock && capsLocked.Some? && FindFirst(capsLocked.value, k).Some? ==>
        r == Ok(FindFirst(capsLocked.value, k))
      ensures parsed.Some? && (!capsLock || (capsLocked.Some? && FindFirst(capsLocked.value, k).None?)) ==>
        r == Ok(FindFirst(parsed.value, k))
    {
      if capsLock && capsLocked.None? then Err(NullReferenceException)
      else if capsLock && FindFirst(capsLocked.value, k).Some? then Ok(FindFirst(capsLocked.value, k))
      else if parsed.None? then Err(NullReferenceException)
      else Ok(FindFirst(parsed.value, k))
    }

    /** Installs the two tables and names the modifiers from the normal one. */
    method Init(normal: seq<KeymapItem>, caps: seq<KeymapItem>)
      modifies this
      ensures parsed == Some(normal) && capsLocked == Some(caps)
      ensures control == NameOr(normal, K.Control, "Control")
      ensures shift == NameOr(normal, K.Shift, "Shift")
      ensures alt == NameOr(normal, K.Alt, "Alt")
    {
      parsed := Some(normal);
      capsLocked := Some(caps);
      var c := Find(K.Control, false);
      control := if c.value.Some? then c.value.value else "Control";
      var s := Find(K.Shift, false);
      shift := if s.value.Some? then s.value.value else "Shift";
      var a := Find(K.Alt, false);
      alt := if a.value.Some? then a.value.value else "Alt";
    }

    /** Parses the lines of a key map file into the two tables, then Init. */
    method Parse(lines: seq<string>)
      modifies this
      ensures parsed == Some(Entries(members, lines, false)) && capsLocked == Some(Entries(members, lines, true))
      ensures control == NameOr(Entries(members, lines, false), K.Control, "Control")
      ensures shift == NameOr(Entries(members, lines, false), K.Shift, "Shift")
      ensures alt == NameOr(Entries(members, lines, false), K.Alt, "Alt")
    {
      var normal, caps := Tables(ParseAll(members, lines));
      Init(normal, caps);
    }

    /** Loads the key map file; when it cannot be read (None) nothing changes. */
    method Load(file: Option<seq<string>>)
      modifies this
      ensures file.None? ==> parsed == old(parsed) && capsLocked == old(capsLocked)
      ensures file.None? ==> control == old(control) && shift == old(shift) && alt == old(alt)
      ensures file.Some? ==> parsed == Some(Entries(members, file.value, false)) && capsLocked == Some(Entries(members, file.value, true))
      ensures file.Some? ==> control == NameOr(Entries(members, file.value, false), K.Control, "Control")
      ensures file.Some? ==> shift == NameOr(Entries(members, file.value, false), K.Shift, "Shift")
      ensures file.Some? ==> alt == NameOr(Entries(members, file.value, false), K.Alt, "Alt")
    {
      match file {
        case None =>
        case Some(lines) => Parse(lines);
      }
    }
  }
}
