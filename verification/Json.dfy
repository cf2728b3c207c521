/**
The canonical JSON text of the chain store. A JavaScript object is modelled by the
map of its own properties, so its key order is not part of the value.
*/
module Json {
  import opened Text

  datatype Json =
    | Null
    | Bool(b: bool)
    | Num(n: int)
    | Str(s: string)
    | Arr(items: seq<Json>)
    | Obj(fields: map<string, Json>)

  const MAX_SAFE: int := 0x1F_FFFF_FFFF_FFFF

  /** Every number is a JavaScript safe integer; `stable` refuses any other value. */
  predicate Safe(v: Json)
    decreases v
  {
    match v
    case Num(n) => -MAX_SAFE <= n <= MAX_SAFE
    case Arr(items) => forall i | 0 <= i < |items| :: Safe(items[i])
    case Obj(fields) => forall k | k in fields :: Safe(fields[k])
    case _ => true
  }

  /** A text under construction, written from its end. */
  datatype Chars = End | Char(c: char, rest: Chars)

  // ---------------------------------------------------------------- writing

  function Digit(d: nat): char
    requires d < 16
  {
    if d < 10 then ('0' as int + d) as char else ('a' as int + d - 10) as char
  }

  function WriteNat(n: nat, rest: Chars): Chars {
    if n < 10 then Char(Digit(n), rest) else WriteNat(n / 10, Char(Digit(n % 10), rest))
  }

  function WriteNumber(n: int, rest: Chars): Chars {
    if n < 0 then Char('-', WriteNat(-n, rest)) else WriteNat(n, rest)
  }

  /** One character inside the quotes of `JSON.stringify`. */
  function WriteChar(c: char, rest: Chars): Chars {
    if c == '\"' || c == '\\' then Char('\\', Char(c, rest))
    else if c as int == 8 then Char('\\', Char('b', rest))
    else if c as int == 9 then Char('\\', Char('t', rest))
    else if c as int == 10 then Char('\\', Char('n', rest))
    else if c as int == 12 then Char('\\', Char('f', rest))
    else if c as int == 13 then Char('\\', Char('r', rest))
    else if c as int < 32 then
      Char('\\', Char('u', Char('0', Char('0', Char(Digit(c as int / 16), Char(Digit(c as int % 16), rest))))))
    else Char(c, rest)
  }

  /** The characters of a string and its closing quote. */
  function WriteQuoted(s: string, rest: Chars): Chars {
    if s == [] then Char('\"', rest) else WriteChar(s[0], WriteQuoted(s[1..], rest))
  }

  function Write(v: Json, rest: Chars): Chars
    decreases v, 1
  {
    match v
    case Null => Char('n', Char('u', Char('l', Char('l', rest))))
    case Bool(true) => Char('t', Char('r', Char('u', Char('e', rest))))
    case Bool(false) => Char('f', Char('a', Char('l', Char('s', Char('e', rest)))))
    case Num(n) => WriteNumber(n, rest)
    case Str(s) => Char('\"', WriteQuoted(s, rest))
    case Arr(items) => Char('[', WriteItems(v, items, rest))
    case Obj(fields) => Char('{', WriteMembers(v, Sorted(fields.Keys), rest))
  }

  function WriteItems(v: Json, items: seq<Json>, rest: Chars): Chars
    requires forall i | 0 <= i < |items| :: items[i] < v
    decreases v, 0, |items|
  {
    if items == [] then Char(']', rest)
    else if |items| == 1 then Write(items[0], Char(']', rest))
    else Write(items[0], Char(',', WriteItems(v, items[1..], rest)))
  }

  function WriteMembers(v: Json, keys: seq<string>, rest: Chars): Chars
    requires v.Obj? && forall i | 0 <= i < |keys| :: keys[i] in v.fields
    decreases v, 0, |keys|
  {
    if keys == [] then Char('}', rest)
    else
      var value := v.fields[keys[0]];
      var after := if |keys| == 1 then Char('}', rest) else Char(',', WriteMembers(v, keys[1..], rest));
      Char('\"', WriteQuoted(keys[0], Char(':', Write(value, after))))
  }

  function ToString(t: Chars): string {
    if t.End? then [] else [t.c] + ToString(t.rest)
  }

  /** The text that `stable` returns. */
  function Stable(v: Json): string {
    ToString(Write(v, End))
  }

  // ---------------------------------------------------------------- reading

  datatype Parsed<T> = Fail | Got(value: T, rest: Chars)

  predicate IsDigit(t: Chars) { t.Char? && '0' <= t.c <= '9' }

  predicate Starts(t: Chars, c: char) { t.Char? && t.c == c }

  function HexValue(c: char): nat {
    if '0' <= c <= '9' then c as int - '0' as int
    else if 'a' <= c <= 'f' then c as int - 'a' as int + 10
    else 0
  }

  function ReadNat(t: Chars, read: nat): (p: Parsed<nat>)
    ensures p.Got? && (p.rest < t || p.rest == t)
  {
    if IsDigit(t) then ReadNat(t.rest, 10 * read + HexValue(t.c)) else Got(read, t)
  }

  function ReadNumber(t: Chars): (p: Parsed<Json>)
    ensures p.Got? ==> p.rest < t
  {
    if Starts(t, '-') && IsDigit(t.rest) then
      var p := ReadNat(t.rest, 0); Got(Num(0 - p.value), p.rest)
    else if IsDigit(t) then
      var p := ReadNat(t.rest, HexValue(t.c)); Got(Num(p.value), p.rest)
    else Fail
  }

  function ReadChar(t: Chars): (p: Parsed<char>)
    ensures p.Got? ==> p.rest < t
  {
    if t.End? then Fail
    else if t.c != '\\' then Got(t.c, t.rest)
    else if t.rest.End? then Fail
    else
      var u := t.rest;
      match u.c
      case 'b' => Got(8 as char, u.rest)
      case 't' => Got(9 as char, u.rest)
      case 'n' => Got(10 as char, u.rest)
      case 'f' => Got(12 as char, u.rest)
      case 'r' => Got(13 as char, u.rest)
      case 'u' =>
        if Starts(u.rest, '0') && Starts(u.rest.rest, '0') && u.rest.rest.rest.Char? && u.rest.rest.rest.rest.Char? then
          var h := u.rest.rest.rest;
          Got((16 * HexValue(h.c) + HexValue(h.rest.c)) as char, h.rest.rest)
        else Fail
      case _ => Got(u.c, u.rest)
  }

  function ReadQuoted(t: Chars): (p: Parsed<string>)
    ensures p.Got? ==> p.rest < t
  {
    if Starts(t, '\"') then Got([], t.rest)
    else
      var first := ReadChar(t);
      if first.Fail? then Fail
      else
        var others := ReadQuoted(first.rest);
        if others.Fail? then Fail else Got([first.value] + others.value, others.rest)
  }

  /** JSON reading, without blanks between tokens. */
  function Read(t: Chars): (p: Parsed<Json>)
    ensures p.Got? ==> p.rest < t
    decreases t, 0
  {
    if t.End? then Fail
    else if t.c == '\"' then
      var p := ReadQuoted(t.rest);
      if p.Fail? then Fail else Got(Str(p.value), p.rest)
    else if t.c == '[' then
      if Starts(t.rest, ']') then Got(Arr([]), t.rest.rest)
      else
        var p := ReadItems(t.rest);
        if p.Fail? then Fail else Got(Arr(p.value), p.rest)
    else if t.c == '{' then
      if Starts(t.rest, '}') then Got(Obj(map[]), t.rest.rest)
      else
        var p := ReadMembers(t.rest);
        if p.Fail? then Fail else Got(Obj(p.value), p.rest)
    else if t.c == '-' || IsDigit(t) then ReadNumber(t)
    else ReadWord(t)
  }

  function ReadWord(t: Chars): (p: Parsed<Json>)
    ensures p.Got? ==> p.rest < t
  {
    match t
    case Char('n', Char('u', Char('l', Char('l', rest)))) => Got(Null, rest)
    case Char('t', Char('r', Char('u', Char('e', rest)))) => Got(Bool(true), rest)
    case Char('f', Char('a', Char('l', Char('s', Char('e', rest))))) => Got(Bool(false), rest)
    case _ => Fail
  }

  function ReadItems(t: Chars): (p: Parsed<seq<Json>>)
    ensures p.Got? ==> p.rest < t
    decreases t, 1
  {
    var first := Read(t);
    if first.Fail? then Fail
    else if Starts(first.rest, ']') then Got([first.value], first.rest.rest)
    else if !Starts(first.rest, ',') then Fail
    else
      var others := ReadItems(first.rest.rest);
      if others.Fail? then Fail else Got([first.value] + others.value, others.rest)
  }

  function ReadMembers(t: Chars): (p: Parsed<map<string, Json>>)
    ensures p.Got? ==> p.rest < t
    decreases t, 1
  {
    if !Starts(t, '\"') then Fail
    else
      var key := ReadQuoted(t.rest);
      if key.Fail? || !Starts(key.rest, ':') then Fail
      else
        var first := Read(key.rest.rest);
        if first.Fail? then Fail
        else if Starts(first.rest, '}') then Got(map[key.value := first.value], first.rest.rest)
        else if !Starts(first.rest, ',') then Fail
        else
          var others := ReadMembers(first.rest.rest);
          if others.Fail? then Fail else Got(map[key.value := first.value] + others.value, others.rest)
  }

  function FromString(s: string): Chars {
    if s == [] then End else Char(s[0], FromString(s[1..]))
  }

  /** `JSON.parse`: the whole text is one value. */
  function Parse(s: string): (v: Parsed<Json>) {
    var p := Read(FromString(s));
    if p.Got? && p.rest.End? then p else Fail
  }

  // ------------------------------------------------- reading undoes writing

  lemma {:induction false} ReadNatOf(n: nat, rest: Chars)
    ensures ReadNat(WriteNat(n, rest), 0) == ReadNat(rest, n)
    ensures IsDigit(WriteNat(n, rest))
  {
    if n >= 10 { ReadNatOf(n / 10, Char(Digit(n % 10), rest)); }
  }

  lemma ReadNumberOf(n: int, rest: Chars)
    requires !IsDigit(rest)
    ensures ReadNumber(WriteNumber(n, rest)) == Got(Num(n), rest)
  {
    ReadNatOf(if n < 0 then -n else n, rest);
  }

  lemma ReadCharOf(c: char, rest: Chars)
    ensures ReadChar(WriteChar(c, rest)) == Got(c, rest)
    ensures !Starts(WriteChar(c, rest), '\"')
  {
  }

  lemma {:induction false} ReadQuotedOf(s: string, rest: Chars)
    ensures ReadQuoted(WriteQuoted(s, rest)) == Got(s, rest)
  {
    if s != [] {
      ReadCharOf(s[0], WriteQuoted(s[1..], rest));
      ReadQuotedOf(s[1..], rest);
      assert s == [s[0]] + s[1..];
    }
  }

  lemma {:induction false} WriteStarts(v: Json, rest: Chars)
    ensures !Starts(Write(v, rest), ']')
    ensures v.Num? ==> Starts(Write(v, rest), '-') || IsDigit(Write(v, rest))
  {
    if v.Num? && v.n >= 0 { ReadNatOf(v.n, rest); }
  }

  lemma {:induction false} ReadLeaf(v: Json, rest: Chars)
    requires !IsDigit(rest) && !v.Arr? && !v.Obj?
    ensures Read(Write(v, rest)) == Got(v, rest)
  {
    if v.Num? {
      WriteStarts(v, rest);
      ReadNumberOf(v.n, rest);
    } else if v.Str? {
      ReadQuotedOf(v.s, rest);
    } else {
      assert ReadWord(Write(v, rest)) == Got(v, rest);
    }
  }

  lemma {:induction false} ReadArr(v: Json, rest: Chars)
    requires v.Arr? && (v.items != [] ==> ReadItems(WriteItems(v, v.items, rest)) == Got(v.items, rest))
    ensures Read(Write(v, rest)) == Got(v, rest)
  {
    var items := v.items;
    if items != [] {
      WriteStarts(items[0], if |items| == 1 then Char(']', rest) else Char(',', WriteItems(v, items[1..], rest)));
    }
  }

  lemma {:induction false} ReadObj(v: Json, keys: seq<string>, rest: Chars)
    requires v.Obj? && keys == Sorted(v.fields.Keys)
    requires keys != [] ==> ReadMembers(WriteMembers(v, keys, rest)) == Got(v.fields, rest)
    ensures Read(Write(v, rest)) == Got(v, rest)
  {
    WriteObj(v, keys, rest);
    var text := WriteMembers(v, keys, rest);
    hide Write, WriteMembers, ReadMembers, Read, Sorted;
    if keys == [] {
      ReadEmptyObj(rest);
    } else {
      ReadBraced(text, v.fields, rest);
    }
  }

  lemma {:induction false} WriteObj(v: Json, keys: seq<string>, rest: Chars)
    requires v.Obj? && keys == Sorted(v.fields.Keys)
    ensures Write(v, rest) == Char('{', WriteMembers(v, keys, rest))
    ensures if keys == [] then v.fields == map[] && WriteMembers(v, keys, rest) == Char('}', rest)
            else Starts(WriteMembers(v, keys, rest), '\"')
  {
    hide WriteQuoted, Sorted;
    assert forall k :: k in keys <==> k in v.fields.Keys;
  }

  lemma {:induction false} ReadEmptyObj(rest: Chars)
    ensures Read(Char('{', Char('}', rest))) == Got(Obj(map[]), rest)
  {
  }

  lemma {:induction false} ReadBraced(text: Chars, fields: map<string, Json>, rest: Chars)
    requires !Starts(text, '}') && ReadMembers(text) == Got(fields, rest)
    ensures Read(Char('{', text)) == Got(Obj(fields), rest)
  {
    hide ReadMembers;
  }

  lemma {:induction false} ReadWrite(v: Json, rest: Chars)
    requires !IsDigit(rest)
    ensures Read(Write(v, rest)) == Got(v, rest)
    decreases v, 1
  {
    if v.Arr? {
      if v.items != [] { ReadItemsOf(v, v.items, rest); }
      ReadArr(v, rest);
    } else if v.Obj? {
      var keys := Sorted(v.fields.Keys);
      if keys != [] {
        ReadMembersOf(v, keys, rest);
        assert v.fields == Selected(v, keys);
      }
      ReadObj(v, keys, rest);
    } else {
      ReadLeaf(v, rest);
    }
  }

  lemma {:induction false} ReadItemsOf(v: Json, items: seq<Json>, rest: Chars)
    requires items != [] && forall i | 0 <= i < |items| :: items[i] < v
    ensures ReadItems(WriteItems(v, items, rest)) == Got(items, rest)
    decreases v, 0, |items|
  {
    if |items| == 1 {
      ReadWrite(items[0], Char(']', rest));
      assert items == [items[0]];
    } else {
      ReadWrite(items[0], Char(',', WriteItems(v, items[1..], rest)));
      ReadItemsOf(v, items[1..], rest);
      assert items == [items[0]] + items[1..];
    }
  }

  function Selected(v: Json, keys: seq<string>): map<string, Json>
    requires v.Obj? && forall i | 0 <= i < |keys| :: keys[i] in v.fields
  {
    map k | k in keys :: v.fields[k]
  }

  lemma {:induction false} MemberRead(key: string, value: Json, after: Chars)
    requires Read(Write(value, after)) == Got(value, after)
    ensures var p := ReadMembers(Char('\"', WriteQuoted(key, Char(':', Write(value, after)))));
            && (Starts(after, '}') ==> p == Got(map[key := value], after.rest))
            && (Starts(after, ',') ==>
                  var others := ReadMembers(after.rest);
                  others.Got? ==> p == Got(map[key := value] + others.value, others.rest))
  {
    ReadQuotedOf(key, Char(':', Write(value, after)));
  }

  lemma SelectedStep(v: Json, keys: seq<string>)
    requires keys != [] && v.Obj? && forall i | 0 <= i < |keys| :: keys[i] in v.fields
    ensures Selected(v, keys) == map[keys[0] := v.fields[keys[0]]] + Selected(v, keys[1..])
    ensures |keys| == 1 ==> Selected(v, keys) == map[keys[0] := v.fields[keys[0]]]
  {
    assert keys == [keys[0]] + keys[1..];
  }

  lemma {:induction false} ReadMembersOf(v: Json, keys: seq<string>, rest: Chars)
    requires keys != [] && v.Obj? && forall i | 0 <= i < |keys| :: keys[i] in v.fields
    ensures ReadMembers(WriteMembers(v, keys, rest)) == Got(Selected(v, keys), rest)
    decreases v, 0, |keys|
  {
    var value := v.fields[keys[0]];
    var after := if |keys| == 1 then Char('}', rest) else Char(',', WriteMembers(v, keys[1..], rest));
    if |keys| > 1 { ReadMembersOf(v, keys[1..], rest); }
    ReadWrite(value, after);
    MemberRead(keys[0], value, after);
    SelectedStep(v, keys);
  }

  lemma {:induction false} FromToString(t: Chars)
    ensures FromString(ToString(t)) == t
  {
    if t.Char? { FromToString(t.rest); }
  }

  /** `JSON.parse` undoes `stable` on every value. */
  lemma ParseStable(v: Json)
    ensures Parse(Stable(v)) == Got(v, End)
  {
    FromToString(Write(v, End));
    ReadWrite(v, End);
  }

  /** Equal canonical texts are texts of equal values: a fingerprint loses nothing. */
  lemma StableInjective(a: Json, b: Json)
    ensures Stable(a) == Stable(b) <==> a == b
  {
    ParseStable(a);
    ParseStable(b);
  }
}
