/**
  `untrusted_context`: one JSON envelope within a character budget. Values arrive
  redacted; redaction itself maps JSON to JSON and is not modelled.
*/
module Envelope {
  import opened Options

  predicate Printable(s: string) {
    forall i :: 0 <= i < |s| ==> ' ' <= s[i] <= '~'
  }

  /** The text of a number, a boolean or null. */
  type Token = s: string | Printable(s) witness "0"

  /** Objects keep their insertion order. */
  datatype Json = Scalar(token: Token) | Str(text: string) | Arr(items: seq<Json>) | Obj(fields: seq<Field>)
  datatype Field = Field(key: string, value: Json)

  // ------------------------------------------------- json.dumps(ensure_ascii=True)

  function Hex4(n: nat): (s: string)
    requires n < 0x10000
    ensures |s| == 4 && Printable(s)
  {
    [HexDigit(n / 4096), HexDigit(n / 256 % 16), HexDigit(n / 16 % 16), HexDigit(n % 16)]
  }

  function HexDigit(d: nat): (c: char)
    requires d < 16
    ensures '0' <= c <= 'f'
  {
    "0123456789abcdef"[d]
  }

  function EscapeChar(c: char): (s: string)
    ensures Printable(s) && 1 <= |s| <= 12
    ensures ' ' <= c <= '~' ==> |s| <= 2
  {
    var n := c as int;
    if c == '\"' then "\\\""
    else if c == '\\' then "\\\\"
    else if c == '\n' then "\\n"
    else if c == '\r' then "\\r"
    else if c == '\t' then "\\t"
    else if n == 8 then "\\b"
    else if n == 12 then "\\f"
    else if ' ' <= c <= '~' then [c]
    else if n < 0x10000 then "\\u" + Hex4(n)
    else "\\u" + Hex4(0xd800 + (n - 0x10000) / 0x400) + "\\u" + Hex4(0xdc00 + (n - 0x10000) % 0x400)
  }

  function Escaped(s: string): (r: string)
    ensures Printable(r)
  {
    if s == "" then "" else EscapeChar(s[0]) + Escaped(s[1..])
  }

  function Dumps(j: Json): (r: string)
    ensures Printable(r)
    decreases j
  {
    match j
    case Scalar(token) => token
    case Str(text) => "\"" + Escaped(text) + "\""
    case Arr(items) => "[" + DumpItems(items) + "]"
    case Obj(fields) => "{" + DumpFields(fields) + "}"
  }

  function DumpItems(items: seq<Json>): (r: string)
    ensures Printable(r)
    decreases items
  {
    if items == [] then ""
    else if |items| == 1 then Dumps(items[0])
    else Dumps(items[0]) + ", " + DumpItems(items[1..])
  }

  function DumpFields(fields: seq<Field>): (r: string)
    ensures Printable(r)
    decreases fields
  {
    if fields == [] then ""
    else if |fields| == 1 then DumpField(fields[0])
    else DumpField(fields[0]) + ", " + DumpFields(fields[1..])
  }

  function DumpField(f: Field): (r: string)
    ensures Printable(r)
    decreases f
  {
    "\"" + Escaped(f.key) + "\": " + Dumps(f.value)
  }

  /** Escaping text that is already JSON at most doubles it: only quotes and backslashes grow. */
  lemma {:induction false} EscapingPrintable(s: string)
    requires Printable(s)
    ensures |Escaped(s)| <= 2 * |s|
  {
    if s != "" {
      EscapingPrintable(s[1..]);
    }
  }

  // -------------------------------------------------------------------- bounding

  const DEPTH_LIMIT := "[depth limit]"

  function Bounded(item: Json, depth: nat): Json
    decreases item
  {
    if depth > 10 then Str(DEPTH_LIMIT)
    else
      match item
      case Scalar(_) => item
      case Str(text) => Str(if |text| <= 4000 then text else text[..4000])
      case Arr(items) => Arr(BoundedItems(if |items| <= 20 then items else items[|items| - 20..], depth + 1))
      case Obj(fields) => Obj(BoundedFields(if |fields| <= 40 then fields else fields[..40], depth + 1))
  }

  function BoundedItems(items: seq<Json>, depth: nat): (r: seq<Json>)
    ensures |r| == |items|
    decreases items
  {
    if items == [] then [] else [Bounded(items[0], depth)] + BoundedItems(items[1..], depth)
  }

  function BoundedFields(fields: seq<Field>, depth: nat): (r: seq<Field>)
    ensures |r| == |fields|
    decreases fields
  {
    if fields == [] then []
    else [Field(fields[0].key, Bounded(fields[0].value, depth))] + BoundedFields(fields[1..], depth)
  }

  /** What the bounds allow at a depth: short strings, short lists, small objects, and nothing below the limit. */
  predicate Within(item: Json, depth: nat)
    decreases item
  {
    if depth > 10 then item == Str(DEPTH_LIMIT)
    else
      match item
      case Scalar(_) => true
      case Str(text) => |text| <= 4000
      case Arr(items) => |items| <= 20 && WithinItems(items, depth + 1)
      case Obj(fields) => |fields| <= 40 && WithinFields(fields, depth + 1)
  }

  predicate WithinItems(items: seq<Json>, depth: nat)
    decreases items
  {
    items == [] || (Within(items[0], depth) && WithinItems(items[1..], depth))
  }

  predicate WithinFields(fields: seq<Field>, depth: nat)
    decreases fields
  {
    fields == [] || (Within(fields[0].value, depth) && WithinFields(fields[1..], depth))
  }

  /** Every result is within the bounds at every level. */
  lemma {:induction false} BoundedIsWithin(item: Json, depth: nat)
    ensures Within(Bounded(item, depth), depth)
    decreases item
  {
    if depth <= 10 {
      match item
      case Arr(items) => ItemsWithin(if |items| <= 20 then items else items[|items| - 20..], depth + 1);
      case Obj(fields) => FieldsWithin(if |fields| <= 40 then fields else fields[..40], depth + 1);
      case _ =>
    }
  }

  lemma {:induction false} ItemsWithin(items: seq<Json>, depth: nat)
    ensures WithinItems(BoundedItems(items, depth), depth)
    decreases items
  {
    if items != [] {
      BoundedIsWithin(items[0], depth);
      ItemsWithin(items[1..], depth);
      assert BoundedItems(items, depth)[1..] == BoundedItems(items[1..], depth);
    }
  }

  lemma {:induction false} FieldsWithin(fields: seq<Field>, depth: nat)
    ensures WithinFields(BoundedFields(fields, depth), depth)
    decreases fields
  {
    if fields != [] {
      BoundedIsWithin(fields[0].value, depth);
      FieldsWithin(fields[1..], depth);
      assert BoundedFields(fields, depth)[1..] == BoundedFields(fields[1..], depth);
    }
  }

  lemma {:induction false} WithinIsKept(item: Json, depth: nat)
    requires Within(item, depth)
    ensures Bounded(item, depth) == item
    decreases item
  {
    if depth <= 10 {
      match item
      case Arr(items) => ItemsKept(items, depth + 1);
      case Obj(fields) => FieldsKept(fields, depth + 1);
      case _ =>
    }
  }

  lemma {:induction false} ItemsKept(items: seq<Json>, depth: nat)
    requires WithinItems(items, depth)
    ensures BoundedItems(items, depth) == items
    decreases items
  {
    if items != [] {
      WithinIsKept(items[0], depth);
      ItemsKept(items[1..], depth);
    }
  }

  lemma {:induction false} FieldsKept(fields: seq<Field>, depth: nat)
    requires WithinFields(fields, depth)
    ensures BoundedFields(fields, depth) == fields
    decreases fields
  {
    if fields != [] {
      WithinIsKept(fields[0].value, depth);
      FieldsKept(fields[1..], depth);
    }
  }

  /** Bounding is the projection onto what is within the bounds: it changes exactly what is not. */
  lemma BoundedChangesExactlyExcess(item: Json, depth: nat)
    ensures Bounded(item, depth) == item <==> Within(item, depth)
    ensures Bounded(Bounded(item, depth), depth) == Bounded(item, depth)
  {
    BoundedIsWithin(item, depth);
    WithinIsKept(Bounded(item, depth), depth);
    if Within(item, depth) {
      WithinIsKept(item, depth);
    }
  }

  lemma {:induction false} BoundedItemAt(items: seq<Json>, depth: nat, k: nat)
    requires k < |items|
    ensures BoundedItems(items, depth)[k] == Bounded(items[k], depth)
  {
    if k > 0 {
      BoundedItemAt(items[1..], depth, k - 1);
    }
  }

  lemma {:induction false} BoundedFieldAt(fields: seq<Field>, depth: nat, k: nat)
    requires k < |fields|
    ensures BoundedFields(fields, depth)[k] == Field(fields[k].key, Bounded(fields[k].value, depth))
  {
    if k > 0 {
      BoundedFieldAt(fields[1..], depth, k - 1);
    }
  }

  /** Of a list the newest twenty entries stay, in order; of an object the first forty fields. */
  lemma NewestEntriesStay(items: seq<Json>, depth: nat, k: nat)
    requires depth <= 10 && k < |items|
    ensures var kept := Bounded(Arr(items), depth).items;
            && |kept| == (if |items| < 20 then |items| else 20)
            && (k >= |items| - |kept| ==> kept[k - (|items| - |kept|)] == Bounded(items[k], depth + 1))
  {
    var tail := if |items| <= 20 then items else items[|items| - 20..];
    if k >= |items| - |tail| {
      BoundedItemAt(tail, depth + 1, k - (|items| - |tail|));
    }
  }

  lemma FirstFieldsStay(fields: seq<Field>, depth: nat, k: nat)
    requires depth <= 10 && k < |fields|
    ensures var kept := Bounded(Obj(fields), depth).fields;
            && |kept| == (if |fields| < 40 then |fields| else 40)
            && (k < 40 ==> kept[k] == Field(fields[k].key, Bounded(fields[k].value, depth + 1)))
  {
    if k < 40 {
      BoundedFieldAt(if |fields| <= 40 then fields else fields[..40], depth + 1, k);
    }
  }

  // -------------------------------------------------------------------- trimming

  const OMITTED := "omitted_items"

  /** Python's order on strings. */
  predicate AtMost(a: string, b: string) {
    a == "" || (b != "" && (a[0] < b[0] || (a[0] == b[0] && AtMost(a[1..], b[1..]))))
  }

  predicate Trimmable(f: Field) {
    f.value.Arr? && f.value.items != []
  }

  /** `(len, key)` order. */
  predicate NotAbove(f: Field, g: Field)
    requires Trimmable(f) && Trimmable(g)
  {
    |f.value.items| < |g.value.items| || (|f.value.items| == |g.value.items| && AtMost(f.key, g.key))
  }

  lemma {:induction false} AtMostTotal(a: string, b: string)
    ensures AtMost(a, b) || AtMost(b, a)
  {
    if a != "" && b != "" {
      AtMostTotal(a[1..], b[1..]);
    }
  }

  lemma {:induction false} AtMostTransitive(a: string, b: string, c: string)
    requires AtMost(a, b) && AtMost(b, c)
    ensures AtMost(a, c)
  {
    if a != "" && b != "" && c != "" && a[0] == b[0] == c[0] {
      AtMostTransitive(a[1..], b[1..], c[1..]);
    }
  }

  predicate IsLongest(fields: seq<Field>, i: nat) {
    && i < |fields| && Trimmable(fields[i])
    && forall j :: 0 <= j < |fields| && Trimmable(fields[j]) ==> NotAbove(fields[j], fields[i])
  }

  /** `max(lists)`: the longest list, ties going to the greatest key. */
  function Longest(fields: seq<Field>): (at: Option<nat>)
    ensures at.Some? ==> IsLongest(fields, at.value)
    ensures at.None? ==> forall j :: 0 <= j < |fields| ==> !Trimmable(fields[j])
  {
    if fields == [] then None
    else
      var last := |fields| - 1;
      var best := Longest(fields[..last]);
      if !Trimmable(fields[last]) then best
      else if best.None? then
        AtMostTotal(fields[last].key, fields[last].key);
        Some(last)
      else
        var b := best.value;
        AtMostTotal(fields[last].key, fields[b].key);
        AtMostTotal(fields[last].key, fields[last].key);
        if NotAbove(fields[last], fields[b]) then best
        else
          assert forall j :: 0 <= j < last && Trimmable(fields[j]) ==> NotAbove(fields[j], fields[last]) by {
            forall j | 0 <= j < last && Trimmable(fields[j])
              ensures NotAbove(fields[j], fields[last])
            {
              assert fields[..last][j] == fields[j];
              if |fields[j].value.items| == |fields[last].value.items| {
                AtMostTransitive(fields[j].key, fields[b].key, fields[last].key);
              }
            }
          }
          Some(last)
  }

  function IndexOf(fields: seq<Field>, key: string): (at: Option<nat>)
    ensures at.Some? ==> at.value < |fields| && fields[at.value].key == key
    ensures at.None? <==> forall j :: 0 <= j < |fields| ==> fields[j].key != key
  {
    if fields == [] then None
    else if fields[0].key == key then Some(0)
    else
      var rest := IndexOf(fields[1..], key);
      assert forall j :: 1 <= j < |fields| ==> fields[j] == fields[1..][j - 1];
      if rest.None? then None else Some(rest.value + 1)
  }

  /** A dict assignment keeps the place of a key that is there, and appends one that is not. */
  function SetField(fields: seq<Field>, key: string, value: Json): seq<Field> {
    var at := IndexOf(fields, key);
    if at.Some? then fields[at.value := Field(key, value)] else fields + [Field(key, value)]
  }

  function Width(value: Json): nat {
    if value.Arr? then |value.items| else 0
  }

  function ListTotal(fields: seq<Field>): nat {
    if fields == [] then 0 else Width(fields[0].value) + ListTotal(fields[1..])
  }

  lemma {:induction false} UpdateTotal(fields: seq<Field>, i: nat, f: Field)
    requires i < |fields|
    ensures ListTotal(fields[i := f]) == ListTotal(fields) - Width(fields[i].value) + Width(f.value)
  {
    if i == 0 {
      assert fields[0 := f][1..] == fields[1..];
    } else {
      assert fields[i := f][1..] == fields[1..][i - 1 := f];
      UpdateTotal(fields[1..], i - 1, f);
    }
  }

  lemma {:induction false} AppendTotal(fields: seq<Field>, f: Field)
    ensures ListTotal(fields + [f]) == ListTotal(fields) + Width(f.value)
  {
    if fields != [] {
      assert (fields + [f])[1..] == fields[1..] + [f];
      AppendTotal(fields[1..], f);
    } else {
      assert fields + [f] == [f] && [f][1..] == [];
    }
  }

  function Decimal(n: nat): (s: string)
    ensures Printable(s)
  {
    if n < 10 then ["0123456789"[n]] else Decimal(n / 10) + ["0123456789"[n % 10]]
  }

  function Shortened(fields: seq<Field>, i: nat): seq<Field>
    requires i < |fields| && Trimmable(fields[i])
  {
    fields[i := Field(fields[i].key, Arr(fields[i].value.items[1..]))]
  }

  /** One pass of the loop body: the oldest entry of the longest list goes, and the count is noted. */
  function DropOne(fields: seq<Field>, omitted: nat): (r: seq<Field>)
    requires Longest(fields).Some?
    ensures ListTotal(r) < ListTotal(fields)
  {
    var i := Longest(fields).value;
    var shorter, count := Shortened(fields, i), Field(OMITTED, Scalar(Decimal(omitted)));
    UpdateTotal(fields, i, shorter[i]);
    AppendTotal(shorter, count);
    var at := IndexOf(shorter, OMITTED);
    assert at.Some? ==> ListTotal(shorter[at.value := count]) <= ListTotal(shorter) by {
      if at.Some? {
        UpdateTotal(shorter, at.value, count);
      }
    }
    SetField(shorter, OMITTED, count.value)
  }

  /** The envelope after `n` drops, or after as many as there was something to drop. */
  function Drops(fields: seq<Field>, n: nat): seq<Field> {
    if n == 0 then fields
    else
      var before := Drops(fields, n - 1);
      if Longest(before).None? then before else DropOne(before, n)
  }

  predicate Fits(j: Json, limit: nat) {
    |Dumps(j)| <= limit
  }

  /** The loop ends at the first count at which the envelope fits or has nothing left to drop. */
  predicate FirstFit(fields: seq<Field>, limit: nat, n: nat) {
    (Fits(Obj(Drops(fields, n)), limit) || Longest(Drops(fields, n)).None?) && DropsNeeded(fields, limit, n)
  }

  predicate DropsNeeded(fields: seq<Field>, limit: nat, n: nat) {
    forall j :: 0 <= j < n ==> !Fits(Obj(Drops(fields, j)), limit) && Droppable(fields, j)
  }

  predicate Droppable(fields: seq<Field>, j: nat) {
    Longest(Drops(fields, j)).Some?
  }

  lemma DropNeeded(fields: seq<Field>, limit: nat, n: nat)
    requires DropsNeeded(fields, limit, n) && !Fits(Obj(Drops(fields, n)), limit) && Droppable(fields, n)
    ensures DropsNeeded(fields, limit, n + 1) && Drops(fields, n + 1) == DropOne(Drops(fields, n), n + 1)
  {
  }

  lemma FirstFitIsUnique(fields: seq<Field>, limit: nat, n: nat, k: nat)
    requires FirstFit(fields, limit, n) && FirstFit(fields, limit, k)
    ensures n == k
  {
    assert n < k ==> !Fits(Obj(Drops(fields, n)), limit) && Droppable(fields, n);
    assert k < n ==> !Fits(Obj(Drops(fields, k)), limit) && Droppable(fields, k);
  }

  // --------------------------------------------------------------- untrusted_context

  const HEADER := "UNTRUSTED_DATA_JSON\n"
  const FOOTER := "\nEND_UNTRUSTED_DATA_JSON"

  function Excerpt(data: string, limit: nat): Json
    requires |data| > limit
  {
    Obj([Field("truncated", Scalar("true")), Field("data_excerpt", Str(data[..limit / 2]))])
  }

  function Wrapped(data: string): (r: string)
    ensures |r| == |data| + 44
  {
    HEADER + data + FOOTER
  }

  /** The JSON text that is wrapped, given the bounded and trimmed value. */
  function Payload(trimmed: Json, limit: nat): string {
    var data := Dumps(trimmed);
    if |data| > limit then Dumps(Excerpt(data, limit)) else data
  }

  predicate Plain(s: string) {
    forall i :: 0 <= i < |s| ==> s[i] == '_' || 'a' <= s[i] <= 'z'
  }

  lemma {:induction false} PlainText(s: string)
    requires Plain(s)
    ensures Escaped(s) == s
  {
    if s != "" {
      PlainText(s[1..]);
    }
  }

  lemma TwoFields(a: Field, b: Field)
    ensures |Dumps(Obj([a, b]))| == |Escaped(a.key)| + |Dumps(a.value)| + |Escaped(b.key)| + |Dumps(b.value)| + 12
  {
    var fields := [a, b];
    assert fields[1..] == [b];
    assert |DumpFields([b])| == |Escaped(b.key)| + |Dumps(b.value)| + 4;
    assert |DumpFields(fields)| == |Escaped(a.key)| + |Dumps(a.value)| + 4 + 2 + |DumpFields([b])|;
  }

  lemma PairLength(flag: string, token: Token, key: string, text: string)
    requires Plain(flag) && Plain(key)
    ensures |Dumps(Obj([Field(flag, Scalar(token)), Field(key, Str(text))]))|
            == |flag| + |token| + |key| + |Escaped(text)| + 14
  {
    PlainText(flag);
    PlainText(key);
    TwoFields(Field(flag, Scalar(token)), Field(key, Str(text)));
  }

  lemma PayloadBound(trimmed: Json, limit: nat)
    ensures |Payload(trimmed, limit)| <= limit + 39
  {
    var data := Dumps(trimmed);
    if |data| > limit {
      PairLength("truncated", "true", "data_excerpt", data[..limit / 2]);
      EscapingPrintable(data[..limit / 2]);
    }
  }

  /** The trimming loop: lists lose entries one at a time, only as long as the envelope does not fit. */
  method Trim(fields: seq<Field>, limit: nat) returns (trimmed: seq<Field>, omitted: nat)
    ensures trimmed == Drops(fields, omitted) && FirstFit(fields, limit, omitted)
  {
    trimmed, omitted := fields, 0;
    var data := Dumps(Obj(trimmed));
    while |data| > limit
      invariant trimmed == Drops(fields, omitted) && data == Dumps(Obj(trimmed))
      invariant DropsNeeded(fields, limit, omitted)
      decreases ListTotal(trimmed)
    {
      var longest := Longest(trimmed);
      if longest.None? {
        break;
      }
      DropNeeded(fields, limit, omitted);
      omitted := omitted + 1;
      trimmed := DropOne(trimmed, omitted);
      data := Dumps(Obj(trimmed));
    }
  }

  /** The value the envelope carries for a bounded value after so many drops. */
  function Carried(value: Json, n: nat): Json {
    if value.Obj? then Obj(Drops(value.fields, n)) else value
  }

  /** The envelope never exceeds the budget by more than 83 characters. */
  method UntrustedContext(redacted: Json, limit: nat) returns (text: string, omitted: nat)
    ensures var value := Bounded(redacted, 0);
            && text == Wrapped(Payload(Carried(value, omitted), limit))
            && (if value.Obj?
                then FirstFit(value.fields, limit, omitted)
                     && forall n :: FirstFit(value.fields, limit, n) ==> n == omitted
                else omitted == 0)
    ensures |text| <= limit + 83
  {
    var value := Bounded(redacted, 0);
    omitted := 0;
    if value.Obj? {
      var trimmed;
      trimmed, omitted := Trim(value.fields, limit);
      forall n | FirstFit(value.fields, limit, n)
        ensures n == omitted
      {
        FirstFitIsUnique(value.fields, limit, n, omitted);
      }
      value := Obj(trimmed);
    }
    PayloadBound(value, limit);
    var data := Dumps(value);
    if |data| > limit {
      data := Dumps(Excerpt(data, limit));
    }
    text := Wrapped(data);
  }

  // ------------------------------------------------------------- what survives

  /** A list keeps a suffix, everything else stays as it is. */
  predicate Survives(before: Json, after: Json) {
    if before.Arr?
    then after.Arr? && |after.items| <= |before.items| && after.items == before.items[|before.items| - |after.items|..]
    else after == before
  }

  predicate Reserved(fields: seq<Field>) {
    exists i :: 0 <= i < |fields| && fields[i].key == OMITTED
  }

  ghost predicate Trimmed(fields: seq<Field>, r: seq<Field>, n: nat) {
    && |r| == (if n == 0 then |fields| else |fields| + 1)
    && (forall i :: 0 <= i < |fields| ==> r[i].key == fields[i].key && Survives(fields[i].value, r[i].value))
    && (n > 0 ==> r[|fields|] == Field(OMITTED, Scalar(Decimal(n))))
    && ListTotal(r) + n == ListTotal(fields)
  }

  lemma OneLess(before: Json, after: Json)
    requires Survives(before, after) && after.Arr? && after.items != []
    ensures Survives(before, Arr(after.items[1..]))
  {
  }

  /** Shortening one of the original fields keeps all of them surviving. */
  lemma ShortenedSurvives(fields: seq<Field>, before: seq<Field>, n: nat, i: nat)
    requires Trimmed(fields, before, n) && i < |fields| && Trimmable(before[i])
    ensures var r := Shortened(before, i);
            && (forall j :: 0 <= j < |fields| ==> r[j].key == fields[j].key && Survives(fields[j].value, r[j].value))
            && ListTotal(r) + n + 1 == ListTotal(fields)
  {
    var r := Shortened(before, i);
    UpdateTotal(before, i, r[i]);
    forall j | 0 <= j < |fields|
      ensures r[j].key == fields[j].key && Survives(fields[j].value, r[j].value)
    {
      if j == i {
        OneLess(fields[i].value, before[i].value);
      } else {
        assert r[j] == before[j];
      }
    }
  }

  /** One drop shortens the longest list and notes the count behind the original fields. */
  lemma DropEffect(fields: seq<Field>, before: seq<Field>, n: nat, i: nat)
    requires !Reserved(fields) && Trimmed(fields, before, n) && Longest(before) == Some(i)
    ensures i < |fields|
    ensures var r := DropOne(before, n + 1);
            && |r| == |fields| + 1 && r[|fields|] == Field(OMITTED, Scalar(Decimal(n + 1)))
            && ListTotal(r) == ListTotal(Shortened(before, i))
            && forall j :: 0 <= j < |fields| ==> r[j] == Shortened(before, i)[j]
  {
    var shorter, count := Shortened(before, i), Field(OMITTED, Scalar(Decimal(n + 1)));
    forall j | 0 <= j < |fields|
      ensures shorter[j].key != OMITTED
    {
      assert fields[j].key != OMITTED;
    }
    CountSet(shorter, |fields|, count);
  }

  lemma DropTrims(fields: seq<Field>, before: seq<Field>, n: nat)
    requires !Reserved(fields) && Trimmed(fields, before, n) && Longest(before).Some?
    ensures Trimmed(fields, DropOne(before, n + 1), n + 1)
  {
    var i := Longest(before).value;
    DropEffect(fields, before, n, i);
    ShortenedSurvives(fields, before, n, i);
  }

  /** Where the count goes: to its own place after the original fields. */
  lemma CountSet(shorter: seq<Field>, m: nat, count: Field)
    requires m <= |shorter| <= m + 1 && count.key == OMITTED && Width(count.value) == 0
    requires forall j :: 0 <= j < m ==> shorter[j].key != OMITTED
    requires |shorter| == m + 1 ==> shorter[m].key == OMITTED && Width(shorter[m].value) == 0
    ensures var r := SetField(shorter, OMITTED, count.value);
            && |r| == m + 1 && r[m] == count && ListTotal(r) == ListTotal(shorter)
            && forall j :: 0 <= j < m ==> r[j] == shorter[j]
  {
    if |shorter| == m {
      AppendTotal(shorter, count);
    } else {
      assert shorter[m].key == OMITTED;
      assert IndexOf(shorter, OMITTED) == Some(m);
      UpdateTotal(shorter, m, count);
    }
  }

  /**
    Unless the input already uses the key, `omitted_items` is the exact number of entries
    dropped, the order of keys is kept, and every list that survives is a suffix of what it was.
  */
  lemma {:induction false} OmittedIsExact(fields: seq<Field>, n: nat)
    requires !Reserved(fields)
    requires forall j :: 0 <= j < n ==> Droppable(fields, j)
    ensures Trimmed(fields, Drops(fields, n), n)
  {
    if n > 0 {
      OmittedIsExact(fields, n - 1);
      assert Droppable(fields, n - 1);
      DropTrims(fields, Drops(fields, n - 1), n - 1);
    }
  }

  /** A list that lost an entry is at most one shorter than any other list left. */
  ghost predicate Levelled(fields: seq<Field>, r: seq<Field>)
    requires |r| >= |fields|
  {
    forall i, j :: 0 <= i < |fields| && 0 <= j < |fields| && Width(r[i].value) < Width(fields[i].value) ==>
      Width(r[j].value) <= Width(r[i].value) + 1
  }

  /** Dropping from the longest list levels them: no observation list is starved for another. */
  lemma {:induction false} DropsLevel(fields: seq<Field>, n: nat)
    requires !Reserved(fields)
    requires forall j :: 0 <= j < n ==> Droppable(fields, j)
    ensures |Drops(fields, n)| >= |fields| && Levelled(fields, Drops(fields, n))
  {
    OmittedIsExact(fields, n);
    if n > 0 {
      DropsLevel(fields, n - 1);
      OmittedIsExact(fields, n - 1);
      assert Droppable(fields, n - 1);
      LevelledStep(fields, Drops(fields, n - 1), n - 1);
    }
  }

  lemma LevelledStep(fields: seq<Field>, before: seq<Field>, n: nat)
    requires !Reserved(fields) && Trimmed(fields, before, n) && Longest(before).Some?
    requires Levelled(fields, before)
    ensures var r := DropOne(before, n + 1); |r| >= |fields| && Levelled(fields, r)
  {
    var i := Longest(before).value;
    DropEffect(fields, before, n, i);
    LevelledShort(fields, before, i, DropOne(before, n + 1));
  }

  lemma LevelledShort(fields: seq<Field>, before: seq<Field>, i: nat, r: seq<Field>)
    requires |fields| <= |before| && |fields| <= |r| && Levelled(fields, before)
    requires i < |fields| && IsLongest(before, i)
    requires forall j :: 0 <= j < |fields| ==> r[j] == Shortened(before, i)[j]
    ensures Levelled(fields, r)
  {
    forall j | 0 <= j < |fields|
      ensures Width(before[j].value) <= Width(before[i].value)
      ensures Width(r[j].value) == Width(before[j].value) - (if j == i then 1 else 0)
    {
      assert Trimmable(before[j]) ==> NotAbove(before[j], before[i]);
    }
  }

  /** What the trimmed envelope carries: suffixes, an exact count, and level lists. */
  lemma EnvelopeKeepsTheNewest(fields: seq<Field>, limit: nat, n: nat)
    requires !Reserved(fields) && FirstFit(fields, limit, n)
    ensures Trimmed(fields, Drops(fields, n), n) && Levelled(fields, Drops(fields, n))
  {
    DropsLevel(fields, n);
    OmittedIsExact(fields, n);
  }

  // ------------------------------------------------- when the input has that key

  /** Entries that disappear without being counted: the count overwrites a list of that name. */
  function Uncounted(fields: seq<Field>): nat {
    if Longest(fields).None? then 0
    else
      var shorter := Shortened(fields, Longest(fields).value);
      var at := IndexOf(shorter, OMITTED);
      if at.None? then 0 else Width(shorter[at.value].value)
  }

  lemma {:induction false} FirstIndex(fields: seq<Field>, key: string, at: nat)
    requires at < |fields| && fields[at].key == key
    requires forall j :: 0 <= j < at ==> fields[j].key != key
    ensures IndexOf(fields, key) == Some(at)
  {
    if at > 0 {
      FirstIndex(fields[1..], key, at - 1);
    }
  }

  lemma {:induction false} IndexIsFirst(fields: seq<Field>, key: string)
    requires IndexOf(fields, key).Some?
    ensures forall j :: 0 <= j < IndexOf(fields, key).value ==> fields[j].key != key
  {
    if fields[0].key != key {
      IndexIsFirst(fields[1..], key);
    }
  }

  /** The count stands where the key stands. */
  predicate Noted(fields: seq<Field>, n: nat) {
    var at := IndexOf(fields, OMITTED);
    at.Some? && fields[at.value].value == Scalar(Decimal(n))
  }

  lemma SetNotes(shorter: seq<Field>, n: nat)
    ensures var r, at := SetField(shorter, OMITTED, Scalar(Decimal(n))), IndexOf(shorter, OMITTED);
            && Noted(r, n)
            && ListTotal(r) + (if at.None? then 0 else Width(shorter[at.value].value)) == ListTotal(shorter)
  {
    var at, count := IndexOf(shorter, OMITTED), Field(OMITTED, Scalar(Decimal(n)));
    if at.None? {
      AppendTotal(shorter, count);
      FirstIndex(shorter + [count], OMITTED, |shorter|);
    } else {
      UpdateTotal(shorter, at.value, count);
      IndexIsFirst(shorter, OMITTED);
      FirstIndex(shorter[at.value := count], OMITTED, at.value);
    }
  }

  lemma DropTotal(fields: seq<Field>, n: nat)
    requires Longest(fields).Some?
    ensures Noted(DropOne(fields, n), n) && ListTotal(DropOne(fields, n)) + 1 + Uncounted(fields) == ListTotal(fields)
  {
    var i := Longest(fields).value;
    UpdateTotal(fields, i, Shortened(fields, i)[i]);
    SetNotes(Shortened(fields, i), n);
  }

  lemma NotedCountsAll(fields: seq<Field>, n: nat)
    requires Noted(fields, n)
    ensures Uncounted(fields) == 0
  {
    if Longest(fields).Some? {
      var i, at := Longest(fields).value, IndexOf(fields, OMITTED).value;
      IndexIsFirst(fields, OMITTED);
      FirstIndex(Shortened(fields, i), OMITTED, at);
    }
  }

  /**
    With any input, the first drop may overwrite a list called `omitted_items`: the count
    is the number of entries lost exactly when it did not.
  */
  lemma {:induction false} CountedExactlyWhen(fields: seq<Field>, n: nat)
    requires n >= 1 && forall j :: 0 <= j < n ==> Droppable(fields, j)
    ensures Noted(Drops(fields, n), n)
    ensures ListTotal(Drops(fields, n)) + n + Uncounted(fields) == ListTotal(fields)
    ensures ListTotal(Drops(fields, n)) + n == ListTotal(fields) <==> Uncounted(fields) == 0
  {
    var before := Drops(fields, n - 1);
    assert Droppable(fields, n - 1);
    DropTotal(before, n);
    if n > 1 {
      CountedExactlyWhen(fields, n - 1);
      NotedCountsAll(before, n - 1);
    }
  }

  lemma LongestOfOne(f: Field)
    ensures Longest([f]) == if Trimmable(f) then Some(0) else None
  {
    assert [f][..0] == [];
  }

  lemma DropReserved(items: seq<Json>)
    requires items != []
    ensures Longest([Field(OMITTED, Arr(items))]).Some?
    ensures DropOne([Field(OMITTED, Arr(items))], 1) == [Field(OMITTED, Scalar(Decimal(1)))]
  {
    var fields := [Field(OMITTED, Arr(items))];
    LongestOfOne(fields[0]);
    var shorter := Shortened(fields, 0);
    FirstIndex(shorter, OMITTED, 0);
  }

  lemma TotalOfOne(f: Field)
    ensures ListTotal([f]) == Width(f.value)
  {
    assert [f][1..] == [];
  }

  /**
    Inputs that it miscounts: an object whose only list has the reserved name and at least
    two entries. If it does not fit, one entry is dropped, the count of one takes the place
    of the list, and all the others go uncounted.
  */
  lemma MiscountedInput(items: seq<Json>, limit: nat)
    requires |items| >= 2 && !Fits(Obj([Field(OMITTED, Arr(items))]), limit)
    ensures var fields := [Field(OMITTED, Arr(items))];
            && FirstFit(fields, limit, 1) && Noted(Drops(fields, 1), 1)
            && ListTotal(fields) - ListTotal(Drops(fields, 1)) == |items|
  {
    var f, noted := Field(OMITTED, Arr(items)), Field(OMITTED, Scalar(Decimal(1)));
    DropReserved(items);
    assert Droppable([f], 0);
    DropNeeded([f], limit, 0);
    assert Drops([f], 1) == [noted];
    LongestOfOne(noted);
    TotalOfOne(f);
    TotalOfOne(noted);
    FirstIndex([noted], OMITTED, 0);
  }
}
