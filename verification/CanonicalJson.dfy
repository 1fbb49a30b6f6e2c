/**
 * request-fingerprint.ts: the canonical printer. Its output reads back as the
 * value with keys sorted and undefined fields dropped, so two requests print
 * alike exactly when they are the same up to key order.
 */
module CanonicalJson {
  import opened Basics
  import opened Ordering
  import opened JsonText

  /** A number is its JSON text: one text per value, as JSON.stringify writes it. */
  datatype Json =
    | Null
    | Bool(b: bool)
    | Num(text: Text)
    | Str(s: Text)
    | Arr(items: seq<Json>)
    | Obj(fields: seq<Field>)

  /** `None` is a field whose value is undefined. */
  datatype Field = Field(key: Text, value: Option<Json>)

  predicate NumberUnit(u: Unit) { 48 <= u <= 57 || u in {43, 45, 46, 101} }

  /** JSON values: objects have each key once, numbers have a text. */
  ghost predicate IsJson(v: Json) {
    match v
    case Num(text) => text != [] && forall i | 0 <= i < |text| :: NumberUnit(text[i])
    case Arr(items) => forall i | 0 <= i < |items| :: IsJson(items[i])
    case Obj(fields) =>
      && (forall i, j | 0 <= i < j < |fields| :: fields[i].key != fields[j].key)
      && (forall i | 0 <= i < |fields| && fields[i].value.Some? :: IsJson(fields[i].value.value))
    case _ => true
  }

  // ---- Objects ----

  function Keys(fields: seq<Field>): set<Text> {
    set i | 0 <= i < |fields| && fields[i].value.Some? :: fields[i].key
  }

  function SortedKeys(fields: seq<Field>): (r: seq<Text>)
    ensures forall k :: k in r <==> k in Keys(fields)
    ensures Increasing(r, TextLess)
  {
    TextOrder();
    Sorted(Keys(fields), TextLess)
  }

  /** record[key]. */
  function Get(fields: seq<Field>, key: Text): (v: Json)
    requires key in Keys(fields)
    ensures exists i :: 0 <= i < |fields| && fields[i] == Field(key, Some(v))
  {
    if fields[0].key == key && fields[0].value.Some? then fields[0].value.value
    else
      assert key in Keys(fields[1..]) by {
        var i :| 0 <= i < |fields| && fields[i].value.Some? && fields[i].key == key;
        assert fields[1..][i - 1] == fields[i];
      }
      var v := Get(fields[1..], key);
      assert exists i :: 0 <= i < |fields| && fields[i] == Field(key, Some(v)) by {
        var i :| 0 <= i < |fields[1..]| && fields[1..][i] == Field(key, Some(v));
        assert fields[i + 1] == Field(key, Some(v));
      }
      v
  }

  // ---- The printer ----

  const COMMA: Unit := 44
  const COLON: Unit := 58
  const OPEN_LIST: Unit := 91
  const CLOSE_LIST: Unit := 93
  const OPEN_OBJECT: Unit := 123
  const CLOSE_OBJECT: Unit := 125
  const NULL_TEXT: Text := [110, 117, 108, 108]
  const TRUE_TEXT: Text := [116, 114, 117, 101]
  const FALSE_TEXT: Text := [102, 97, 108, 115, 101]

  function Join(parts: seq<Text>): Text {
    if parts == [] then []
    else if |parts| == 1 then parts[0]
    else parts[0] + [COMMA] + Join(parts[1..])
  }

  function Canonical(v: Json): Text {
    match v
    case Null => NULL_TEXT
    case Bool(b) => if b then TRUE_TEXT else FALSE_TEXT
    case Num(text) => text
    case Str(s) => Quote(s)
    case Arr(items) =>
      [OPEN_LIST] + Join(seq(|items|, i requires 0 <= i < |items| => Canonical(items[i]))) + [CLOSE_LIST]
    case Obj(fields) =>
      var keys := SortedKeys(fields);
      [OPEN_OBJECT]
      + Join(seq(|keys|, i requires 0 <= i < |keys| => Quote(keys[i]) + [COLON] + Canonical(Get(fields, keys[i]))))
      + [CLOSE_OBJECT]
  }

  /** The value without key order and undefined fields. */
  function Normal(v: Json): Json {
    match v
    case Arr(items) => Arr(seq(|items|, i requires 0 <= i < |items| => Normal(items[i])))
    case Obj(fields) =>
      var keys := SortedKeys(fields);
      Obj(seq(|keys|, i requires 0 <= i < |keys| => Field(keys[i], Some(Normal(Get(fields, keys[i]))))))
    case _ => v
  }

  /** The same JSON value: equal but for the order of keys and for undefined fields. */
  ghost predicate Same(a: Json, b: Json) {
    match a
    case Arr(items) => b.Arr? && |items| == |b.items| && forall i | 0 <= i < |items| :: Same(items[i], b.items[i])
    case Obj(fields) =>
      && b.Obj? && Keys(fields) == Keys(b.fields)
      && forall k | k in Keys(fields) :: Same(Get(fields, k), Get(b.fields, k))
    case _ => a == b
  }

  // ---- Reading the output back ----

  function NumberLength(out: Text): (n: nat)
    ensures n <= |out|
  {
    if out == [] || !NumberUnit(out[0]) then 0 else 1 + NumberLength(out[1..])
  }

  function ReadNumber(out: Text): (r: Option<Read<Json>>)
    ensures r.Some? ==> |r.value.rest| < |out|
  {
    var n := NumberLength(out);
    if n == 0 then None else Some(Read(Num(out[..n]), out[n..]))
  }

  function ReadWord(out: Text, word: Text, v: Json): (r: Option<Read<Json>>)
    requires word != []
    ensures r.Some? ==> |r.value.rest| < |out|
  {
    if |word| <= |out| && out[..|word|] == word then Some(Read(v, out[|word|..])) else None
  }

  function ReadValue(out: Text): (r: Option<Read<Json>>)
    ensures r.Some? ==> |r.value.rest| < |out|
    decreases |out|, 0
  {
    if out == [] then None
    else if out[0] == QUOTE then
      var s := ReadString(out[1..]);
      if s.None? then None else Some(Read(Str(s.value.value), s.value.rest))
    else if out[0] == OPEN_LIST then
      if |out| > 1 && out[1] == CLOSE_LIST then Some(Read(Arr([]), out[2..]))
      else
        var items := ReadItems(out[1..]);
        if items.None? then None else Some(Read(Arr(items.value.value), items.value.rest))
    else if out[0] == OPEN_OBJECT then
      if |out| > 1 && out[1] == CLOSE_OBJECT then Some(Read(Obj([]), out[2..]))
      else
        var fields := ReadFields(out[1..]);
        if fields.None? then None else Some(Read(Obj(fields.value.value), fields.value.rest))
    else if out[0] == NULL_TEXT[0] then ReadWord(out, NULL_TEXT, Null)
    else if out[0] == TRUE_TEXT[0] then ReadWord(out, TRUE_TEXT, Bool(true))
    else if out[0] == FALSE_TEXT[0] then ReadWord(out, FALSE_TEXT, Bool(false))
    else ReadNumber(out)
  }

  /** One or more values up to and past the closing bracket. */
  function ReadItems(out: Text): (r: Option<Read<seq<Json>>>)
    ensures r.Some? ==> |r.value.rest| < |out|
    decreases |out|, 1
  {
    var v := ReadValue(out);
    if v.None? || v.value.rest == [] then None
    else if v.value.rest[0] == CLOSE_LIST then Some(Read([v.value.value], v.value.rest[1..]))
    else if v.value.rest[0] != COMMA then None
    else
      var more := ReadItems(v.value.rest[1..]);
      if more.None? then None else Some(Read([v.value.value] + more.value.value, more.value.rest))
  }

  function ReadField(out: Text): (r: Option<Read<Field>>)
    ensures r.Some? ==> |r.value.rest| < |out|
    decreases |out|, 1
  {
    if out == [] || out[0] != QUOTE then None
    else
      var k := ReadString(out[1..]);
      if k.None? || k.value.rest == [] || k.value.rest[0] != COLON then None
      else
        var v := ReadValue(k.value.rest[1..]);
        if v.None? then None else Some(Read(Field(k.value.value, Some(v.value.value)), v.value.rest))
  }

  /** One or more fields up to and past the closing brace. */
  function ReadFields(out: Text): (r: Option<Read<seq<Field>>>)
    ensures r.Some? ==> |r.value.rest| < |out|
    decreases |out|, 2
  {
    var f := ReadField(out);
    if f.None? || f.value.rest == [] then None
    else if f.value.rest[0] == CLOSE_OBJECT then Some(Read([f.value.value], f.value.rest[1..]))
    else if f.value.rest[0] != COMMA then None
    else
      var more := ReadFields(f.value.rest[1..]);
      if more.None? then None else Some(Read([f.value.value] + more.value.value, more.value.rest))
  }

  // ---- Unique readability ----

  /** What may follow a value in the output. */
  predicate Ends(rest: Text) { rest == [] || !NumberUnit(rest[0]) }

  lemma {:induction false} NumberReadsBack(text: Text, rest: Text)
    requires (forall i | 0 <= i < |text| :: NumberUnit(text[i])) && Ends(rest)
    ensures NumberLength(text + rest) == |text|
  {
    var out := text + rest;
    if text == [] {
      assert out == rest;
    } else {
      assert out[1..] == text[1..] + rest;
      NumberReadsBack(text[1..], rest);
    }
  }

  lemma NumReadsBack(text: Text, rest: Text)
    requires IsJson(Num(text)) && Ends(rest)
    ensures ReadValue(text + rest) == Some(Read(Num(text), rest))
  {
    var out := text + rest;
    NumberReadsBack(text, rest);
    assert out[0] == text[0] && NumberUnit(text[0]);
    assert out[..|text|] == text && out[|text|..] == rest;
  }

  lemma StrReadsBack(s: Text, rest: Text)
    ensures ReadValue(Quote(s) + rest) == Some(Read(Str(s), rest))
    ensures ReadString((Quote(s) + rest)[1..]) == Some(Read(s, rest))
  {
    var out := Quote(s) + rest;
    assert out[1..] == Escape(s) + [QUOTE] + rest;
    StringReadsBack(s, rest);
  }

  lemma WordsReadBack(rest: Text)
    ensures ReadValue(NULL_TEXT + rest) == Some(Read(Null, rest))
    ensures ReadValue(TRUE_TEXT + rest) == Some(Read(Bool(true), rest))
    ensures ReadValue(FALSE_TEXT + rest) == Some(Read(Bool(false), rest))
  {
  }

  /** A value's text starts with neither a closing bracket nor a comma. */
  lemma ValueStarts(v: Json)
    requires IsJson(v)
    ensures Canonical(v) != [] && Canonical(v)[0] !in {COMMA, CLOSE_LIST, CLOSE_OBJECT}
  {
  }

  function ItemTexts(items: seq<Json>): (r: seq<Text>)
    ensures |r| == |items| && forall i | 0 <= i < |r| :: r[i] == Canonical(items[i])
  {
    seq(|items|, i requires 0 <= i < |items| => Canonical(items[i]))
  }

  function Normals(items: seq<Json>): (r: seq<Json>)
    ensures |r| == |items| && forall i | 0 <= i < |r| :: r[i] == Normal(items[i])
  {
    seq(|items|, i requires 0 <= i < |items| => Normal(items[i]))
  }

  lemma JoinUnfolds(parts: seq<Text>, i: nat)
    requires i < |parts|
    ensures Join(parts[i..]) == if i == |parts| - 1 then parts[i] else parts[i] + [COMMA] + Join(parts[i + 1..])
  {
  }

  /** What is left to read: one part, then the close or a comma and the others. */
  lemma JoinTail(parts: seq<Text>, i: nat, close: Unit, rest: Text)
    requires i < |parts|
    ensures i == |parts| - 1 ==> Join(parts[i..]) + [close] + rest == parts[i] + ([close] + rest)
    ensures i < |parts| - 1 ==>
      Join(parts[i..]) + [close] + rest == parts[i] + ([COMMA] + (Join(parts[i + 1..]) + [close] + rest))
  {
  }

  /** One step of reading a list whose next value reads back. */
  lemma ReadItemsStep(text: Text, v: Json, tail: Text)
    requires tail != [] && ReadValue(text + tail) == Some(Read(v, tail))
    ensures tail[0] == CLOSE_LIST ==> ReadItems(text + tail) == Some(Read([v], tail[1..]))
    ensures tail[0] == COMMA && ReadItems(tail[1..]).Some? ==>
      ReadItems(text + tail) == Some(Read([v] + ReadItems(tail[1..]).value.value, ReadItems(tail[1..]).value.rest))
  {
  }

  lemma {:induction false} ItemsReadBack(v: Json, i: nat, rest: Text)
    requires v.Arr? && IsJson(v) && i < |v.items|
    ensures ReadItems(Join(ItemTexts(v.items)[i..]) + [CLOSE_LIST] + rest)
         == Some(Read(Normals(v.items)[i..], rest))
    decreases v, 0, |v.items| - i
  {
    hide ReadItems, ReadValue, Canonical, Normal, Join;
    var texts, normals := ItemTexts(v.items), Normals(v.items);
    JoinTail(texts, i, CLOSE_LIST, rest);
    if i == |v.items| - 1 {
      var tail := [CLOSE_LIST] + rest;
      ReadsBack(v.items[i], tail);
      ReadItemsStep(texts[i], normals[i], tail);
      assert normals[i..] == [normals[i]] && tail[1..] == rest;
    } else {
      var inner := Join(texts[i + 1..]) + [CLOSE_LIST] + rest;
      var tail := [COMMA] + inner;
      ItemsReadBack(v, i + 1, rest);
      ReadsBack(v.items[i], tail);
      assert tail[1..] == inner;
      ReadItemsStep(texts[i], normals[i], tail);
      assert normals[i..] == [normals[i]] + normals[i + 1..];
    }
  }

  function FieldText(fields: seq<Field>, key: Text): Text
    requires key in Keys(fields)
  {
    Quote(key) + [COLON] + Canonical(Get(fields, key))
  }

  function FieldTexts(fields: seq<Field>): (r: seq<Text>)
    ensures |r| == |SortedKeys(fields)|
    ensures forall i | 0 <= i < |r| :: r[i] == FieldText(fields, SortedKeys(fields)[i])
  {
    var keys := SortedKeys(fields);
    seq(|keys|, i requires 0 <= i < |keys| => FieldText(fields, keys[i]))
  }

  function NormalFields(fields: seq<Field>): (r: seq<Field>)
    ensures |r| == |SortedKeys(fields)|
    ensures forall i | 0 <= i < |r| ::
      SortedKeys(fields)[i] in Keys(fields)
      && r[i] == Field(SortedKeys(fields)[i], Some(Normal(Get(fields, SortedKeys(fields)[i]))))
  {
    var keys := SortedKeys(fields);
    seq(|keys|, i requires 0 <= i < |keys| => Field(keys[i], Some(Normal(Get(fields, keys[i])))))
  }

  /** A field found by its key is part of the object, and JSON if the object is. */
  lemma GetIsPart(v: Json, key: Text)
    requires v.Obj? && IsJson(v) && key in Keys(v.fields)
    ensures IsJson(Get(v.fields, key)) && Get(v.fields, key) < v
  {
  }

  lemma QuoteStarts(s: Text)
    ensures Quote(s) != [] && Quote(s)[0] == QUOTE
  {
  }

  lemma ReadFieldParts(key: Text, text: Text, v: Json, tail: Text)
    requires ReadValue(text + tail) == Some(Read(v, tail))
    ensures ReadField(Quote(key) + [COLON] + text + tail) == Some(Read(Field(key, Some(v)), tail))
  {
    hide ReadString, ReadValue, Quote;
    var out := Quote(key) + [COLON] + text + tail;
    var after := [COLON] + (text + tail);
    assert out == Quote(key) + after;
    StrReadsBack(key, after);
    QuoteStarts(key);
    assert out[0] == QUOTE && after[1..] == text + tail;
  }

  lemma ReadFieldsStep(out: Text, f: Field, tail: Text)
    requires tail != [] && ReadField(out) == Some(Read(f, tail))
    ensures tail[0] == CLOSE_OBJECT ==> ReadFields(out) == Some(Read([f], tail[1..]))
    ensures tail[0] == COMMA && ReadFields(tail[1..]).Some? ==>
      ReadFields(out) == Some(Read([f] + ReadFields(tail[1..]).value.value, ReadFields(tail[1..]).value.rest))
  {
  }

  lemma {:induction false} FieldReadsBack(v: Json, i: nat, tail: Text)
    requires v.Obj? && IsJson(v) && i < |SortedKeys(v.fields)| && Ends(tail)
    ensures ReadField(FieldTexts(v.fields)[i] + tail) == Some(Read(NormalFields(v.fields)[i], tail))
    decreases v, 0, 0
  {
    hide ReadField, ReadValue, Canonical, Normal, SortedKeys, Get, Keys;
    var key := SortedKeys(v.fields)[i];
    assert key in SortedKeys(v.fields);
    GetIsPart(v, key);
    var value := Get(v.fields, key);
    ReadsBack(value, tail);
    ReadFieldParts(key, Canonical(value), Normal(value), tail);
    assert FieldTexts(v.fields)[i] == Quote(key) + [COLON] + Canonical(value);
  }

  lemma {:induction false} FieldsReadBack(v: Json, i: nat, rest: Text)
    requires v.Obj? && IsJson(v) && i < |SortedKeys(v.fields)|
    ensures ReadFields(Join(FieldTexts(v.fields)[i..]) + [CLOSE_OBJECT] + rest)
         == Some(Read(NormalFields(v.fields)[i..], rest))
    decreases v, 0, |SortedKeys(v.fields)| - i + 1
  {
    hide ReadFields, ReadField, FieldText, Normal, SortedKeys, Get, Keys, Join;
    var texts, normals := FieldTexts(v.fields), NormalFields(v.fields);
    JoinTail(texts, i, CLOSE_OBJECT, rest);
    if i == |texts| - 1 {
      var tail := [CLOSE_OBJECT] + rest;
      FieldReadsBack(v, i, tail);
      ReadFieldsStep(texts[i] + tail, normals[i], tail);
      assert normals[i..] == [normals[i]] && tail[1..] == rest;
    } else {
      var inner := Join(texts[i + 1..]) + [CLOSE_OBJECT] + rest;
      var tail := [COMMA] + inner;
      FieldsReadBack(v, i + 1, rest);
      FieldReadsBack(v, i, tail);
      assert tail[1..] == inner;
      ReadFieldsStep(texts[i] + tail, normals[i], tail);
      assert normals[i..] == [normals[i]] + normals[i + 1..];
    }
  }

  lemma ListText(items: seq<Json>)
    ensures Canonical(Arr(items)) == [OPEN_LIST] + Join(ItemTexts(items)) + [CLOSE_LIST]
    ensures Normal(Arr(items)) == Arr(Normals(items))
  {
  }

  lemma ObjectText(fields: seq<Field>)
    ensures Canonical(Obj(fields)) == [OPEN_OBJECT] + Join(FieldTexts(fields)) + [CLOSE_OBJECT]
    ensures Normal(Obj(fields)) == Obj(NormalFields(fields))
  {
    var keys := SortedKeys(fields);
    assert FieldTexts(fields)
        == seq(|keys|, i requires 0 <= i < |keys| => Quote(keys[i]) + [COLON] + Canonical(Get(fields, keys[i])));
  }

  lemma {:induction false} ListReadsBack(v: Json, rest: Text)
    requires v.Arr? && IsJson(v)
    ensures ReadValue(Canonical(v) + rest) == Some(Read(Normal(v), rest))
    decreases v, 0, |v.items| + 1
  {
    hide Canonical, Normal, ReadItems;
    ListText(v.items);
    var inside := Join(ItemTexts(v.items)) + [CLOSE_LIST] + rest;
    assert Canonical(v) + rest == [OPEN_LIST] + inside;
    assert ([OPEN_LIST] + inside)[1..] == inside;
    if v.items == [] {
      assert inside[1..] == rest;
    } else {
      ItemsReadBack(v, 0, rest);
      assert ItemTexts(v.items)[0..] == ItemTexts(v.items) && Normals(v.items)[0..] == Normals(v.items);
      ValueStarts(v.items[0]);
      JoinUnfolds(ItemTexts(v.items), 0);
      assert inside[0] == Canonical(v.items[0])[0];
    }
  }

  lemma {:induction false} ObjectReadsBack(v: Json, rest: Text)
    requires v.Obj? && IsJson(v)
    ensures ReadValue(Canonical(v) + rest) == Some(Read(Normal(v), rest))
    decreases v, 0, |SortedKeys(v.fields)| + 2
  {
    hide Canonical, Normal, ReadFields, SortedKeys, Get, Keys;
    ObjectText(v.fields);
    var texts := FieldTexts(v.fields);
    var inside := Join(texts) + [CLOSE_OBJECT] + rest;
    assert Canonical(v) + rest == [OPEN_OBJECT] + inside;
    assert ([OPEN_OBJECT] + inside)[1..] == inside;
    if SortedKeys(v.fields) == [] {
      assert inside[1..] == rest;
    } else {
      FieldsReadBack(v, 0, rest);
      assert texts[0..] == texts && NormalFields(v.fields)[0..] == NormalFields(v.fields);
      JoinUnfolds(texts, 0);
      assert texts[0][0] == QUOTE;
      assert inside[0] == texts[0][0];
    }
  }

  /** Unique readability: whatever follows, the printed value reads back as its normal form and leaves the rest. */
  lemma {:induction false} ReadsBack(v: Json, rest: Text)
    requires IsJson(v) && Ends(rest)
    ensures ReadValue(Canonical(v) + rest) == Some(Read(Normal(v), rest))
    decreases v, 1, 0
  {
    hide ReadValue, IsJson;
    match v
    case Null => WordsReadBack(rest);
    case Bool(_) => WordsReadBack(rest);
    case Num(text) => NumReadsBack(text, rest);
    case Str(s) => StrReadsBack(s, rest);
    case Arr(_) => ListReadsBack(v, rest);
    case Obj(_) => ObjectReadsBack(v, rest);
  }

  // ---- Printing alike means being the same ----

  lemma {:induction false} NormalMeansSame(a: Json, b: Json)
    requires IsJson(a) && IsJson(b) && Normal(a) == Normal(b)
    ensures Same(a, b)
    decreases a
  {
    match a
    case Arr(items) =>
      ListText(items);
      ListText(b.items);
      forall i | 0 <= i < |items| ensures Same(items[i], b.items[i]) {
        assert Normals(items)[i] == Normals(b.items)[i];
        NormalMeansSame(items[i], b.items[i]);
      }
    case Obj(fields) => ObjectsMeanSame(a, b);
    case _ =>
  }

  /** Equal normal fields: the same keys, and under each key the same normal value. */
  lemma NormalFieldsMeanSameKeys(a: seq<Field>, b: seq<Field>)
    requires NormalFields(a) == NormalFields(b)
    ensures Keys(a) == Keys(b)
    ensures forall k | k in Keys(a) :: Normal(Get(a, k)) == Normal(Get(b, k))
  {
    hide Normal, Get;
    var keys, others := SortedKeys(a), SortedKeys(b);
    forall i | 0 <= i < |keys| ensures keys[i] == others[i] {
      assert NormalFields(a)[i] == NormalFields(b)[i];
    }
    assert keys == others;
    forall k ensures k in Keys(a) <==> k in Keys(b) {
      assert k in keys <==> k in others;
    }
    forall k | k in Keys(a) ensures Normal(Get(a, k)) == Normal(Get(b, k)) {
      var i :| 0 <= i < |keys| && keys[i] == k;
      assert NormalFields(a)[i] == NormalFields(b)[i];
    }
  }

  lemma {:induction false} ObjectsMeanSame(a: Json, b: Json)
    requires a.Obj? && b.Obj? && IsJson(a) && IsJson(b) && Normal(a) == Normal(b)
    ensures Same(a, b)
    decreases a, 0
  {
    hide IsJson, Normal, Get, Keys;
    ObjectText(a.fields);
    ObjectText(b.fields);
    NormalFieldsMeanSameKeys(a.fields, b.fields);
    forall k | k in Keys(a.fields) ensures Same(Get(a.fields, k), Get(b.fields, k)) {
      GetIsPart(a, k);
      GetIsPart(b, k);
      NormalMeansSame(Get(a.fields, k), Get(b.fields, k));
    }
  }

  lemma {:induction false} SamePrintsAlike(a: Json, b: Json)
    requires IsJson(a) && IsJson(b) && Same(a, b)
    ensures Canonical(a) == Canonical(b)
    decreases a
  {
    match a
    case Arr(items) =>
      ListText(items);
      ListText(b.items);
      forall i | 0 <= i < |items| ensures ItemTexts(items)[i] == ItemTexts(b.items)[i] {
        SamePrintsAlike(items[i], b.items[i]);
      }
      assert ItemTexts(items) == ItemTexts(b.items);
    case Obj(fields) => SameObjectsPrintAlike(a, b);
    case _ =>
  }

  lemma {:induction false} SameObjectsPrintAlike(a: Json, b: Json)
    requires a.Obj? && IsJson(a) && IsJson(b) && Same(a, b)
    ensures Canonical(a) == Canonical(b)
    decreases a, 0
  {
    hide IsJson;
    ObjectText(a.fields);
    ObjectText(b.fields);
    TextOrder();
    IncreasingUnique(SortedKeys(a.fields), SortedKeys(b.fields), TextLess);
    var keys := SortedKeys(a.fields);
    forall i | 0 <= i < |keys| ensures FieldTexts(a.fields)[i] == FieldTexts(b.fields)[i] {
      assert keys[i] in keys;
      GetIsPart(a, keys[i]);
      GetIsPart(b, keys[i]);
      SamePrintsAlike(Get(a.fields, keys[i]), Get(b.fields, keys[i]));
    }
    assert FieldTexts(a.fields) == FieldTexts(b.fields);
  }

  /** Two JSON values have the same canonical text if and only if they are the same up to key order. */
  lemma CanonicalIffSame(a: Json, b: Json)
    requires IsJson(a) && IsJson(b)
    ensures Canonical(a) == Canonical(b) <==> Same(a, b)
  {
    hide *;
    if Canonical(a) == Canonical(b) {
      ReadsBackAlone(a);
      ReadsBackAlone(b);
      NormalMeansSame(a, b);
    }
    if Same(a, b) { SamePrintsAlike(a, b); }
  }

  lemma ReadsBackAlone(v: Json)
    requires IsJson(v)
    ensures ReadValue(Canonical(v)) == Some(Read(Normal(v), []))
  {
    hide ReadValue, Canonical, Normal, IsJson;
    ReadsBack(v, []);
    assert Canonical(v) + [] == Canonical(v);
  }

  // ---- The fingerprint ----

  const METHOD_KEY: Text := [109, 101, 116, 104, 111, 100]
  const PATH_KEY: Text := [112, 97, 116, 104]
  const BODY_KEY: Text := [98, 111, 100, 121]

  /** SHA-256 taken as injective: a digest is the text it was made from. */
  datatype Fingerprint = Sha256(text: Text)

  function RequestJson(verb: Text, path: Text, body: Json): Json {
    Obj([Field(METHOD_KEY, Some(Str(verb))), Field(PATH_KEY, Some(Str(path))), Field(BODY_KEY, Some(body))])
  }

  function RequestFingerprint(verb: Text, path: Text, body: Json): Fingerprint {
    Sha256(Canonical(RequestJson(verb, path, body)))
  }

  lemma RequestFields(verb: Text, path: Text, body: Json)
    ensures
      var fields := RequestJson(verb, path, body).fields;
      && Keys(fields) == {METHOD_KEY, PATH_KEY, BODY_KEY}
      && Get(fields, METHOD_KEY) == Str(verb) && Get(fields, PATH_KEY) == Str(path) && Get(fields, BODY_KEY) == body
  {
    var fields := RequestJson(verb, path, body).fields;
    assert METHOD_KEY[0] != PATH_KEY[0] && METHOD_KEY[0] != BODY_KEY[0] && PATH_KEY[0] != BODY_KEY[0];
    forall k ensures k in Keys(fields) <==> k in {METHOD_KEY, PATH_KEY, BODY_KEY} {
      if k in {METHOD_KEY, PATH_KEY, BODY_KEY} {
        assert fields[0].key == METHOD_KEY && fields[1].key == PATH_KEY && fields[2].key == BODY_KEY;
      }
    }
    GetIsAt(fields, 0, METHOD_KEY);
    GetIsAt(fields, 1, PATH_KEY);
    GetIsAt(fields, 2, BODY_KEY);
  }

  lemma GetIsAt(fields: seq<Field>, i: nat, key: Text)
    requires i < |fields| && fields[i].key == key && fields[i].value.Some?
    requires forall a, b | 0 <= a < b < |fields| :: fields[a].key != fields[b].key
    ensures key in Keys(fields) && Get(fields, key) == fields[i].value.value
  {
  }

  /** Two requests are one request exactly when method and path are equal and the bodies are the same JSON value. */
  lemma SameFingerprintIffSameRequest(
    verb: Text, path: Text, body: Json, verb': Text, path': Text, body': Json)
    requires IsJson(body) && IsJson(body')
    ensures RequestFingerprint(verb, path, body) == RequestFingerprint(verb', path', body')
      <==> verb == verb' && path == path' && Same(body, body')
  {
    hide Canonical, Keys, Get;
    var a, b := RequestJson(verb, path, body), RequestJson(verb', path', body');
    RequestFields(verb, path, body);
    RequestFields(verb', path', body');
    assert METHOD_KEY[0] != PATH_KEY[0] && METHOD_KEY[0] != BODY_KEY[0] && PATH_KEY[0] != BODY_KEY[0];
    CanonicalIffSame(a, b);
    RequestsSameIff(a, b);
  }

  lemma RequestsSameIff(a: Json, b: Json)
    requires a.Obj? && b.Obj? && Keys(a.fields) == Keys(b.fields) == {METHOD_KEY, PATH_KEY, BODY_KEY}
    ensures Same(a, b) <==>
      && Same(Get(a.fields, METHOD_KEY), Get(b.fields, METHOD_KEY))
      && Same(Get(a.fields, PATH_KEY), Get(b.fields, PATH_KEY))
      && Same(Get(a.fields, BODY_KEY), Get(b.fields, BODY_KEY))
  {
    hide Get;
    assert METHOD_KEY in Keys(a.fields) && PATH_KEY in Keys(a.fields) && BODY_KEY in Keys(a.fields);
  }
}
