/** The marine-life filter panel (app/components/marine-life/marine-life-filters.tsx):
    `updateFilter` copies the current query into a `URLSearchParams`, sets or
    deletes one key and navigates to the path with the new query;
    `clearFilters` navigates to the bare path.

    `SearchParams` models the `URLSearchParams` object the handler mutates:
    its list of name-value pairs, with `set`, `delete` and `toString` as the
    URL Standard defines them. The router is not modelled: the handlers
    return the URL they push. */
module MarineLifeFilters {
  import opened Sequences
  import opened JsValues

  type Pair = (string, string)

  // ---------------------------------------------------------------------
  // The name-value list
  // ---------------------------------------------------------------------

  /** `delete(name)`: every pair with that name is removed. */
  function DeleteEntry(entries: seq<Pair>, name: string): seq<Pair>
  {
    if entries == [] then []
    else (if entries[0].0 == name then [] else [entries[0]]) + DeleteEntry(entries[1..], name)
  }

  /** `set(name, value)`: the first pair with that name gets the value and the
      later ones are removed; without such a pair, one is appended. */
  function SetEntry(entries: seq<Pair>, name: string, value: string): seq<Pair>
  {
    if entries == [] then [(name, value)]
    else if entries[0].0 == name then [(name, value)] + DeleteEntry(entries[1..], name)
    else [entries[0]] + SetEntry(entries[1..], name, value)
  }

  /** `getAll(name)`: the values of that name, in list order. */
  function ValuesOf(entries: seq<Pair>, name: string): seq<string>
  {
    if entries == [] then []
    else (if entries[0].0 == name then [entries[0].1] else []) + ValuesOf(entries[1..], name)
  }

  /** After `delete(name)` the name has no value and every other name keeps
      all its values in order. */
  lemma {:induction false} DeleteEntryValues(entries: seq<Pair>, name: string, other: string)
    ensures ValuesOf(DeleteEntry(entries, name), name) == []
    ensures other != name ==> ValuesOf(DeleteEntry(entries, name), other) == ValuesOf(entries, other)
  {
    if entries != [] {
      DeleteEntryValues(entries[1..], name, other);
      var head := if entries[0].0 == name then [] else [entries[0]];
      ValuesOfAppend(head, DeleteEntry(entries[1..], name), name);
      ValuesOfAppend(head, DeleteEntry(entries[1..], name), other);
    }
  }

  /** After `set(name, value)` the name has exactly that one value and every
      other name keeps all its values in order. */
  lemma {:induction false} SetEntryValues(entries: seq<Pair>, name: string, value: string, other: string)
    ensures ValuesOf(SetEntry(entries, name, value), name) == [value]
    ensures other != name ==> ValuesOf(SetEntry(entries, name, value), other) == ValuesOf(entries, other)
  {
    if entries == [] {
      assert ValuesOf([(name, value)], name) == [value] + ValuesOf([], name);
    } else if entries[0].0 == name {
      DeleteEntryValues(entries[1..], name, other);
      ValuesOfAppend([(name, value)], DeleteEntry(entries[1..], name), name);
      ValuesOfAppend([(name, value)], DeleteEntry(entries[1..], name), other);
      assert ValuesOf([(name, value)], name) == [value] + ValuesOf([], name);
    } else {
      SetEntryValues(entries[1..], name, value, other);
      ValuesOfAppend([entries[0]], SetEntry(entries[1..], name, value), name);
      ValuesOfAppend([entries[0]], SetEntry(entries[1..], name, value), other);
    }
  }

  lemma {:induction false} ValuesOfAppend(a: seq<Pair>, b: seq<Pair>, name: string)
    ensures ValuesOf(a + b, name) == ValuesOf(a, name) + ValuesOf(b, name)
  {
    if a == [] {
      assert a + b == b;
    } else {
      ValuesOfAppend(a[1..], b, name);
      ConsAppend(a, b);
      ValuesOfCons(a[0], a[1..] + b, name);
    }
  }

  lemma ValuesOfCons(x: Pair, s: seq<Pair>, name: string)
    ensures ValuesOf([x] + s, name) == (if x.0 == name then [x.1] else []) + ValuesOf(s, name)
  {
    assert ([x] + s)[1..] == s;
  }

  /** Setting a name leaves the other pairs where they were: with that name's
      pairs taken out, the list is the same before and after. */
  lemma {:induction false} SetEntryKeepsOthers(entries: seq<Pair>, name: string, value: string)
    ensures DeleteEntry(SetEntry(entries, name, value), name) == DeleteEntry(entries, name)
  {
    if entries == [] {
      assert DeleteEntry([(name, value)], name) == [] + DeleteEntry([], name);
    } else if entries[0].0 == name {
      DeleteEntryTwice(entries[1..], name);
      DeleteEntryAppend([(name, value)], DeleteEntry(entries[1..], name), name);
      assert DeleteEntry([(name, value)], name) == [] + DeleteEntry([], name);
    } else {
      SetEntryKeepsOthers(entries[1..], name, value);
      DeleteEntryAppend([entries[0]], SetEntry(entries[1..], name, value), name);
    }
  }

  lemma {:induction false} DeleteEntryAppend(a: seq<Pair>, b: seq<Pair>, name: string)
    ensures DeleteEntry(a + b, name) == DeleteEntry(a, name) + DeleteEntry(b, name)
  {
    if a == [] {
      assert a + b == b;
    } else {
      DeleteEntryAppend(a[1..], b, name);
      ConsAppend(a, b);
      DeleteEntryCons(a[0], a[1..] + b, name);
    }
  }

  lemma DeleteEntryCons(x: Pair, s: seq<Pair>, name: string)
    ensures DeleteEntry([x] + s, name) == (if x.0 == name then [] else [x]) + DeleteEntry(s, name)
  {
    assert ([x] + s)[1..] == s;
  }

  /** Deleting is idempotent. */
  lemma {:induction false} DeleteEntryTwice(entries: seq<Pair>, name: string)
    ensures DeleteEntry(DeleteEntry(entries, name), name) == DeleteEntry(entries, name)
  {
    if entries != [] {
      DeleteEntryTwice(entries[1..], name);
      var head := if entries[0].0 == name then [] else [entries[0]];
      DeleteEntryAppend(head, DeleteEntry(entries[1..], name), name);
      assert DeleteEntry(head, name) == head by {
        if head != [] {
          assert DeleteEntry(head, name) == head + DeleteEntry([], name);
        }
      }
    }
  }

  // ---------------------------------------------------------------------
  // Serialisation (application/x-www-form-urlencoded)
  // ---------------------------------------------------------------------

  type Byte = b: int | 0 <= b < 256

  /** The UTF-8 encoding of one Unicode scalar value. */
  function Utf8(c: char): (r: seq<Byte>)
    ensures 1 <= |r| <= 4
    ensures (c as int) < 0x80 ==> r == [c as int]
  {
    var n := c as int;
    if n < 0x80 then [n]
    else if n < 0x800 then [0xC0 + n / 64, 0x80 + n % 64]
    else if n < 0x10000 then [0xE0 + n / 4096, 0x80 + (n / 64) % 64, 0x80 + n % 64]
    else [0xF0 + n / 262144, 0x80 + (n / 4096) % 64, 0x80 + (n / 64) % 64, 0x80 + n % 64]
  }

  function Utf8String(s: string): seq<Byte> {
    if s == [] then [] else Utf8(s[0]) + Utf8String(s[1..])
  }

  /** The bytes the serializer writes as themselves: ASCII letters and digits
      and `*`, `-`, `.`, `_`. */
  predicate Unreserved(b: int) {
    ('a' as int <= b <= 'z' as int) || ('A' as int <= b <= 'Z' as int) || ('0' as int <= b <= '9' as int)
    || b == '*' as int || b == '-' as int || b == '.' as int || b == '_' as int
  }

  function HexDigit(d: int): (c: char)
    requires 0 <= d < 16
    ensures IsHexDigit(c) && HexValue(c) == d
  {
    if d < 10 then ('0' as int + d) as char else ('A' as int + d - 10) as char
  }

  predicate IsHexDigit(c: char) {
    ('0' <= c <= '9') || ('A' <= c <= 'F') || ('a' <= c <= 'f')
  }

  function HexValue(c: char): (d: int)
    requires IsHexDigit(c)
    ensures 0 <= d < 16
  {
    if '0' <= c <= '9' then c as int - '0' as int
    else if 'A' <= c <= 'F' then c as int - 'A' as int + 10
    else c as int - 'a' as int + 10
  }

  /** One byte of a name or value: a space becomes `+`, an unreserved byte
      stays, any other byte becomes `%` and two upper-case hex digits. */
  function EncodeByte(b: Byte): string {
    if b == 0x20 then "+"
    else if Unreserved(b) then [b as char]
    else ['%', HexDigit(b / 16), HexDigit(b % 16)]
  }

  function EncodeBytes(bs: seq<Byte>): string {
    if bs == [] then [] else EncodeByte(bs[0]) + EncodeBytes(bs[1..])
  }

  /** The form-urlencoded text of a name or a value. */
  function Encode(s: string): string {
    EncodeBytes(Utf8String(s))
  }

  /** The bytes a parser reads back from encoded text: `+` is a space and
      `%` with two hex digits is that byte. */
  function DecodeBytes(t: string): seq<Byte>
    decreases |t|
  {
    if t == [] then []
    else if t[0] == '+' then [0x20] + DecodeBytes(t[1..])
    else if t[0] == '%' && |t| >= 3 && IsHexDigit(t[1]) && IsHexDigit(t[2]) then
      [HexValue(t[1]) * 16 + HexValue(t[2])] + DecodeBytes(t[3..])
    else [(t[0] as int) % 256] + DecodeBytes(t[1..])
  }

  /** Decoding the encoding of any byte string gives it back. */
  lemma {:induction false} EncodeBytesRoundTrip(bs: seq<Byte>)
    ensures DecodeBytes(EncodeBytes(bs)) == bs
  {
    if bs != [] {
      var b := bs[0];
      var rest := EncodeBytes(bs[1..]);
      EncodeBytesRoundTrip(bs[1..]);
      var t := EncodeByte(b) + rest;
      if b == 0x20 {
        assert t[0] == '+' && t[1..] == rest;
      } else if Unreserved(b) {
        assert t[0] == b as char && t[1..] == rest;
      } else {
        assert t[0] == '%' && t[1] == HexDigit(b / 16) && t[2] == HexDigit(b % 16);
        assert t[3..] == rest;
      }
    }
  }

  /** Encoded text never holds the separators `&` and `=`, so each pair of a
      serialized list can be split apart again. */
  lemma {:induction false} EncodeBytesNoSeparators(bs: seq<Byte>)
    ensures '&' !in EncodeBytes(bs) && '=' !in EncodeBytes(bs)
  {
    if bs != [] {
      EncodeBytesNoSeparators(bs[1..]);
      var b := bs[0];
      if !(b == 0x20) && !Unreserved(b) {
        assert EncodeByte(b) == ['%', HexDigit(b / 16), HexDigit(b % 16)];
      }
    }
  }

  /** Text made of unreserved ASCII characters is written as it is. */
  lemma {:induction false} EncodePlain(s: string)
    requires forall i :: 0 <= i < |s| ==> Unreserved(s[i] as int)
    ensures Encode(s) == s
  {
    if s != [] {
      EncodePlain(s[1..]);
      assert Utf8String(s) == [s[0] as int] + Utf8String(s[1..]);
      assert Utf8String(s)[1..] == Utf8String(s[1..]);
      assert EncodeByte(s[0] as int) == [s[0]];
      assert s == [s[0]] + s[1..];
    }
  }

  /** `toString()`: `name=value` pairs joined by `&`. */
  function Serialize(entries: seq<Pair>): string
  {
    if entries == [] then ""
    else
      var first := Encode(entries[0].0) + "=" + Encode(entries[0].1);
      if |entries| == 1 then first else first + "&" + Serialize(entries[1..])
  }

  /** The `URLSearchParams` object `updateFilter` builds and mutates. */
  class SearchParams {
    var entries: seq<Pair>

    /** `new URLSearchParams(searchParams.toString())`: a copy of the current
        pairs. */
    constructor (entries: seq<Pair>)
      ensures this.entries == entries
    {
      this.entries := entries;
    }

    method Set(name: string, value: string)
      modifies this
      ensures entries == SetEntry(old(entries), name, value)
    {
      entries := SetEntry(entries, name, value);
    }

    method Delete(name: string)
      modifies this
      ensures entries == DeleteEntry(old(entries), name)
    {
      entries := DeleteEntry(entries, name);
    }

    function ToString(): string
      reads this
    {
      Serialize(entries)
    }
  }

  // ---------------------------------------------------------------------
  // The handlers
  // ---------------------------------------------------------------------

  /** `keyof CurrentFilters` */
  datatype FilterKey = AnimalType | Season | TourType

  function KeyName(key: FilterKey): string {
    match key
    case AnimalType => "animalType"
    case Season => "season"
    case TourType => "tourType"
  }

  /** The pairs `updateFilter` serializes: a truthy value is set, an empty or
      missing one deletes the key. */
  function UpdatedEntries(current: seq<Pair>, key: FilterKey, value: Option<string>): seq<Pair> {
    if value.Some? && value.value != "" then SetEntry(current, KeyName(key), value.value)
    else DeleteEntry(current, KeyName(key))
  }

  /** `updateFilter(key, value)`: the URL it navigates to. */
  method UpdateFilter(current: seq<Pair>, pathname: string, key: FilterKey, value: Option<string>)
    returns (target: string)
    ensures target == pathname + "?" + Serialize(UpdatedEntries(current, key, value))
  {
    var params := new SearchParams(current);
    if value.Some? && value.value != "" {
      params.Set(KeyName(key), value.value);
    } else {
      params.Delete(KeyName(key));
    }
    var query := params.ToString();
    target := pathname + "?" + query;
  }

  /** A non-empty value becomes the key's only value; an empty or missing one
      leaves the key without values; every other key keeps its values, and
      the pairs of other keys keep their order. */
  lemma UpdatedEntriesCorrect(current: seq<Pair>, key: FilterKey, value: Option<string>, other: string)
    ensures value.Some? && value.value != "" ==> ValuesOf(UpdatedEntries(current, key, value), KeyName(key)) == [value.value]
    ensures !(value.Some? && value.value != "") ==> ValuesOf(UpdatedEntries(current, key, value), KeyName(key)) == []
    ensures other != KeyName(key) ==>
      ValuesOf(UpdatedEntries(current, key, value), other) == ValuesOf(current, other)
    ensures DeleteEntry(UpdatedEntries(current, key, value), KeyName(key)) == DeleteEntry(current, KeyName(key))
  {
    if value.Some? && value.value != "" {
      SetEntryValues(current, KeyName(key), value.value, other);
      SetEntryKeepsOthers(current, KeyName(key), value.value);
    } else {
      DeleteEntryValues(current, KeyName(key), other);
      DeleteEntryTwice(current, KeyName(key));
    }
  }

  /** From an empty query, choosing a value whose characters are all
      unreserved gives `?key=value` written out plainly. */
  lemma UpdateFromEmptyQuery(key: FilterKey, value: string)
    requires value != []
    requires forall i :: 0 <= i < |value| ==> Unreserved(value[i] as int)
    ensures Serialize(UpdatedEntries([], key, Some(value))) == KeyName(key) + "=" + value
  {
    EncodePlain(value);
    KeyNamePlain(key);
    assert UpdatedEntries([], key, Some(value)) == [(KeyName(key), value)];
  }

  /** The filter keys are written as they are. */
  lemma KeyNamePlain(key: FilterKey)
    ensures Encode(KeyName(key)) == KeyName(key)
  {
    var name := KeyName(key);
    assert forall i :: 0 <= i < |name| ==> Unreserved(name[i] as int) by {
      match key
      case AnimalType =>
      case Season =>
      case TourType =>
    }
    EncodePlain(name);
  }

  /** `clearFilters`: every filter is dropped by navigating to the path
      without a query. */
  function ClearFilters(pathname: string): (target: string)
    ensures target == pathname
  {
    pathname
  }

  /** Clearing lands on the path that every filter update navigates to: an
      update's target is the cleared target, "?" and the query, and the
      cleared target carries no query of its own. */
  lemma ClearFiltersKeepsPath(current: seq<Pair>, pathname: string, key: FilterKey, value: Option<string>)
    requires '?' !in pathname
    ensures var update := pathname + "?" + Serialize(UpdatedEntries(current, key, value));
      && |ClearFilters(pathname)| < |update|
      && update[..|ClearFilters(pathname)|] == ClearFilters(pathname)
      && update[|ClearFilters(pathname)|] == '?'
      && '?' !in ClearFilters(pathname)
  {
  }

  // ---------------------------------------------------------------------
  // The options offered by each select
  // ---------------------------------------------------------------------

  /** `toLowerCase()` on ASCII letters. */
  function LowerAscii(s: string): (r: string)
    ensures |r| == |s|
    ensures forall i :: 0 <= i < |s| ==> r[i] == if 'A' <= s[i] <= 'Z' then (s[i] as int + 32) as char else s[i]
  {
    if s == [] then []
    else [if 'A' <= s[0] <= 'Z' then (s[0] as int + 32) as char else s[0]] + LowerAscii(s[1..])
  }

  /** The values of a select's items: `"all"` first, then each label
      lower-cased. */
  function OptionValues(labels: seq<string>): (values: seq<string>)
    ensures |values| == |labels| + 1 && values[0] == "all"
    ensures forall i :: 0 <= i < |labels| ==> values[i + 1] == LowerAscii(labels[i])
  {
    ["all"] + seq(|labels|, i requires 0 <= i < |labels| => LowerAscii(labels[i]))
  }

  /** An option value has no upper-case ASCII letter, and lower-casing it
      again changes nothing. */
  lemma OptionValueLower(labels: seq<string>, k: nat)
    requires k < |OptionValues(labels)|
    ensures forall i :: 0 <= i < |OptionValues(labels)[k]| ==> !('A' <= OptionValues(labels)[k][i] <= 'Z')
    ensures LowerAscii(OptionValues(labels)[k]) == OptionValues(labels)[k]
  {
    var v := OptionValues(labels)[k];
    if k > 0 {
      assert v == LowerAscii(labels[k - 1]);
    }
  }

  /** Choosing "All ..." sets the key to `all`: it does not delete it. */
  lemma ChoosingAllSetsKey(current: seq<Pair>, key: FilterKey)
    ensures ValuesOf(UpdatedEntries(current, key, Some("all")), KeyName(key)) == ["all"]
  {
    SetEntryValues(current, KeyName(key), "all", KeyName(key));
  }
}
