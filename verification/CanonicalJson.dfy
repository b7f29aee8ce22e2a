/** Canonical JSON text determines the JSON data, and the data determines the text. */
module CanonicalJson {
  import opened Wrappers

  /** A UTF-16 code unit; JavaScript strings and their default sort order are sequences of these. */
  type CodeUnit = n: nat | n < 0x1_0000

  type Text = seq<CodeUnit>

  const QUOTE: CodeUnit := 34
  const COMMA: CodeUnit := 44
  const COLON: CodeUnit := 58
  const OPEN_BRACKET: CodeUnit := 91
  const BACKSLASH: CodeUnit := 92
  const CLOSE_BRACKET: CodeUnit := 93
  const OPEN_BRACE: CodeUnit := 123
  const CLOSE_BRACE: CodeUnit := 125
  const NULL_TOKEN: Text := [110, 117, 108, 108]
  const TRUE_TOKEN: Text := [116, 114, 117, 101]
  const FALSE_TOKEN: Text := [102, 97, 108, 115, 101]
  const MAX_DEPTH := 256

  /**
   Values handed to the encoder. `N` is the type of finite numbers, with -0 and 0 identified. `Rejected`
   stands for everything that is not JSON data: other types, NaN and infinities, cycles, sparse arrays,
   proxies, accessors and exotic prototypes. Fields are in insertion order.
   */
  datatype Json<N> =
    | Null
    | Bool(b: bool)
    | Number(n: N)
    | Str(s: Text)
    | Arr(items: seq<Json<N>>)
    | Obj(fields: seq<Field<N>>)
    | Rejected

  datatype Field<N> = Field(key: Text, value: Json<N>)

  /** An object never holds one key twice. */
  ghost predicate WellFormed<N>(j: Json<N>) {
    match j
    case Arr(items) => forall i :: 0 <= i < |items| ==> WellFormed(items[i])
    case Obj(fields) =>
      && (forall i, k :: 0 <= i < k < |fields| ==> fields[i].key != fields[k].key)
      && (forall i :: 0 <= i < |fields| ==> WellFormed(fields[i].value))
    case _ => true
  }

  /** Equality of JSON data: objects are compared key by key, whatever their insertion order. */
  ghost predicate Same<N>(a: Json<N>, b: Json<N>) {
    match (a, b)
    case (Null, Null) => true
    case (Bool(x), Bool(y)) => x == y
    case (Number(x), Number(y)) => x == y
    case (Str(x), Str(y)) => x == y
    case (Arr(xs), Arr(ys)) => |xs| == |ys| && forall i :: 0 <= i < |xs| ==> Same(xs[i], ys[i])
    case (Obj(xs), Obj(ys)) =>
      && |xs| == |ys|
      && forall i :: 0 <= i < |xs| ==>
           exists k :: 0 <= k < |ys| && xs[i].key == ys[k].key && Same(xs[i].value, ys[k].value)
    case (_, _) => false
  }

  // ---------------------------------------------------------------- string tokens

  predicate HighSurrogate(c: CodeUnit) { 0xD800 <= c < 0xDC00 }

  predicate LowSurrogate(c: CodeUnit) { 0xDC00 <= c < 0xE000 }

  function HexDigit(d: nat): (c: CodeUnit)
    requires d < 16
  {
    if d < 10 then 48 + d else 87 + d
  }

  function UnicodeEscape(c: CodeUnit): Text {
    [BACKSLASH, 117, HexDigit(c / 4096), HexDigit(c / 256 % 16), HexDigit(c / 16 % 16), HexDigit(c % 16)]
  }

  /** The letter of a two-character escape. */
  function ShortEscape(c: CodeUnit): Option<CodeUnit> {
    if c == 8 then Some(98) else if c == 9 then Some(116) else if c == 10 then Some(110)
    else if c == 12 then Some(102) else if c == 13 then Some(114)
    else if c == QUOTE then Some(QUOTE) else if c == BACKSLASH then Some(BACKSLASH)
    else None
  }

  /** How many code units the first token of a string body covers: two for a surrogate pair. */
  function Span(s: Text): nat
    requires s != []
  {
    if HighSurrogate(s[0]) && |s| > 1 && LowSurrogate(s[1]) then 2 else 1
  }

  /** Control characters, quotes, backslashes and lone surrogates are escaped. */
  function FirstToken(s: Text): Text
    requires s != []
  {
    var c := s[0];
    if ShortEscape(c).Some? then [BACKSLASH, ShortEscape(c).value]
    else if c < 32 then UnicodeEscape(c)
    else if Span(s) == 2 then [c, s[1]]
    else if HighSurrogate(c) || LowSurrogate(c) then UnicodeEscape(c)
    else [c]
  }

  /** The characters between the quotes of a string token. */
  function Escape(s: Text): Text {
    if s == [] then [] else FirstToken(s) + Escape(s[Span(s)..])
  }

  /** `JSON.stringify` of a string. */
  function Quote(s: Text): Text {
    [QUOTE] + Escape(s) + [QUOTE]
  }

  function HexValue(c: CodeUnit): Option<nat> {
    if 48 <= c < 58 then Some(c - 48) else if 97 <= c < 103 then Some(c - 87) else None
  }

  function UnescapeShort(c: CodeUnit): Option<CodeUnit> {
    if c == 98 then Some(8) else if c == 116 then Some(9) else if c == 110 then Some(10)
    else if c == 102 then Some(12) else if c == 114 then Some(13)
    else if c == QUOTE then Some(QUOTE) else if c == BACKSLASH then Some(BACKSLASH)
    else None
  }

  /** Read the rest of a string token (section 7 of RFC 8259) after its opening quote. */
  function ReadString(t: Text): Option<(Text, Text)> {
    if t == [] then None
    else if t[0] == QUOTE then Some(([], t[1..]))
    else if t[0] != BACKSLASH then Prepend(t[0], ReadString(t[1..]))
    else if |t| >= 6 && t[1] == 117 then
      var a, b, c, d := HexValue(t[2]), HexValue(t[3]), HexValue(t[4]), HexValue(t[5]);
      if a.None? || b.None? || c.None? || d.None? then None
      else
        var unit := a.value * 4096 + b.value * 256 + c.value * 16 + d.value;
        if unit < 0x1_0000 then Prepend(unit, ReadString(t[6..])) else None
    else if |t| >= 2 && UnescapeShort(t[1]).Some? then Prepend(UnescapeShort(t[1]).value, ReadString(t[2..]))
    else None
  }

  function Prepend(c: CodeUnit, r: Option<(Text, Text)>): Option<(Text, Text)> {
    match r
    case None => None
    case Some((s, rest)) => Some(([c] + s, rest))
  }

  lemma ReadHex(c: CodeUnit, rest: Text)
    ensures ReadString(UnicodeEscape(c) + rest) == Prepend(c, ReadString(rest))
  {
    var t := UnicodeEscape(c) + rest;
    assert t[6..] == rest;
    assert t[0] == BACKSLASH && t[1] == 117;
    assert HexValue(t[2]) == Some(c / 4096) && HexValue(t[3]) == Some(c / 256 % 16);
    assert HexValue(t[4]) == Some(c / 16 % 16) && HexValue(t[5]) == Some(c % 16);
    HexSum(c);
  }

  lemma HexSum(c: nat)
    requires c < 0x1_0000
    ensures (c / 4096) * 4096 + (c / 256 % 16) * 256 + (c / 16 % 16) * 16 + c % 16 == c
  {
    assert c / 256 / 16 == c / 4096;
    assert c / 16 / 16 == c / 256;
  }

  lemma ReadLiteral(c: CodeUnit, rest: Text)
    requires c != QUOTE && c != BACKSLASH
    ensures ReadString([c] + rest) == Prepend(c, ReadString(rest))
  {
    assert ([c] + rest)[1..] == rest;
  }

  lemma ReadShort(c: CodeUnit, rest: Text)
    requires ShortEscape(c).Some?
    ensures ReadString([BACKSLASH, ShortEscape(c).value] + rest) == Prepend(c, ReadString(rest))
  {
    assert ([BACKSLASH, ShortEscape(c).value] + rest)[2..] == rest;
  }

  /** The first token of a string body, read back. */
  lemma ReadFirst(s: Text, tail: Text)
    requires s != []
    ensures ReadString(FirstToken(s) + tail) ==
            Prepend(s[0], if Span(s) == 1 then ReadString(tail) else Prepend(s[1], ReadString(tail)))
  {
    hide ReadString;
    var c := s[0];
    if ShortEscape(c).Some? {
      ReadShort(c, tail);
    } else if c < 32 {
      ReadHex(c, tail);
    } else if Span(s) == 2 {
      assert [c, s[1]] + tail == [c] + ([s[1]] + tail);
      ReadLiteral(c, [s[1]] + tail);
      ReadLiteral(s[1], tail);
    } else if HighSurrogate(c) || LowSurrogate(c) {
      ReadHex(c, tail);
    } else {
      ReadLiteral(c, tail);
    }
  }

  lemma Regroup(a: Text, b: Text, c: Text, d: Text)
    ensures a + b + c + d == a + (b + c + d)
  {
  }

  lemma BackTogether(s: Text)
    requires s != []
    ensures [s[0]] + s[1..] == s
    ensures |s| > 1 ==> [s[0]] + ([s[1]] + s[2..]) == s
  {
  }

  /** Reading a string token gives the string back, and stops at its closing quote. */
  lemma {:induction false} StringRoundTrip(s: Text, rest: Text)
    ensures ReadString(Escape(s) + [QUOTE] + rest) == Some((s, rest))
  {
    if s == [] {
      assert Escape(s) + [QUOTE] + rest == [QUOTE] + rest;
    } else {
      var tail := Escape(s[Span(s)..]) + [QUOTE] + rest;
      assert Escape(s) == FirstToken(s) + Escape(s[Span(s)..]);
      hide Escape, ReadString, FirstToken;
      Regroup(FirstToken(s), Escape(s[Span(s)..]), [QUOTE], rest);
      ReadFirst(s, tail);
      StringRoundTrip(s[Span(s)..], rest);
      BackTogether(s);
    }
  }

  /** String tokens are injective and self-delimiting. */
  lemma QuoteInjective(a: Text, b: Text, x: Text, y: Text)
    requires Quote(a) + x == Quote(b) + y
    ensures a == b && x == y
  {
    hide Escape, ReadString;
    StringRoundTrip(a, x);
    StringRoundTrip(b, y);
    assert (Quote(a) + x)[1..] == Escape(a) + [QUOTE] + x;
    assert (Quote(b) + y)[1..] == Escape(b) + [QUOTE] + y;
  }

  // ---------------------------------------------------------------- the encoder

  /** `Array.prototype.join(",")`. */
  function Join(ts: seq<Text>): Text {
    if ts == [] then [] else if |ts| == 1 then ts[0] else ts[0] + [COMMA] + Join(ts[1..])
  }

  /** The default sort order of strings: lexicographic by code unit. */
  predicate Less(a: Text, b: Text) {
    b != [] && (a == [] || a[0] < b[0] || (a[0] == b[0] && Less(a[1..], b[1..])))
  }

  function Insert(p: (Text, Text), ps: seq<(Text, Text)>): seq<(Text, Text)> {
    if ps == [] then [p] else if Less(ps[0].0, p.0) then [ps[0]] + Insert(p, ps[1..]) else [p] + ps
  }

  function SortByKey(ps: seq<(Text, Text)>): seq<(Text, Text)> {
    if ps == [] then [] else Insert(ps[0], SortByKey(ps[1..]))
  }

  function Member(p: (Text, Text)): Text {
    Quote(p.0) + [COLON] + p.1
  }

  function Members(ps: seq<(Text, Text)>): seq<Text> {
    seq(|ps|, i requires 0 <= i < |ps| => Member(ps[i]))
  }

  /** `canonicalJson` below the root, with `None` for a thrown TypeError. */
  function Encode<N>(j: Json<N>, depth: nat, tok: N -> Text): Option<Text>
    decreases j, 1
  {
    if depth > MAX_DEPTH then None
    else
      match j
      case Null => Some(NULL_TOKEN)
      case Bool(b) => Some(if b then TRUE_TOKEN else FALSE_TOKEN)
      case Number(n) => Some(tok(n))
      case Str(s) => Some(Quote(s))
      case Arr(items) =>
        (match EncodeItems(items, depth + 1, tok)
         case None => None
         case Some(ts) => Some([OPEN_BRACKET] + Join(ts) + [CLOSE_BRACKET]))
      case Obj(fields) =>
        (match EncodeFields(fields, depth + 1, tok)
         case None => None
         case Some(ps) => Some([OPEN_BRACE] + Join(Members(SortByKey(ps))) + [CLOSE_BRACE]))
      case Rejected => None
  }

  function EncodeItems<N>(items: seq<Json<N>>, depth: nat, tok: N -> Text): (r: Option<seq<Text>>)
    ensures r.Some? ==> |r.value| == |items|
    decreases items, 0
  {
    if items == [] then Some([])
    else
      match (Encode(items[0], depth, tok), EncodeItems(items[1..], depth, tok))
      case (Some(t), Some(ts)) => Some([t] + ts)
      case (_, _) => None
  }

  function EncodeFields<N>(fields: seq<Field<N>>, depth: nat, tok: N -> Text): (r: Option<seq<(Text, Text)>>)
    ensures r.Some? ==> |r.value| == |fields|
    decreases fields, 0
  {
    if fields == [] then Some([])
    else
      var field := fields[0];
      match (Encode(field.value, depth, tok), EncodeFields(fields[1..], depth, tok))
      case (Some(t), Some(ps)) => Some([(field.key, t)] + ps)
      case (_, _) => None
  }

  function CanonicalText<N>(j: Json<N>, tok: N -> Text): Option<Text> {
    Encode(j, 0, tok)
  }

  lemma {:induction false} EncodeItemsAt<N>(items: seq<Json<N>>, depth: nat, tok: N -> Text)
    ensures EncodeItems(items, depth, tok).Some? <==>
              forall i :: 0 <= i < |items| ==> Encode(items[i], depth, tok).Some?
    ensures EncodeItems(items, depth, tok).Some? ==>
              forall i :: 0 <= i < |items| ==> Encode(items[i], depth, tok) == Some(EncodeItems(items, depth, tok).value[i])
  {
    if items != [] { EncodeItemsAt(items[1..], depth, tok); }
  }

  lemma {:induction false} EncodeFieldsAt<N>(fields: seq<Field<N>>, depth: nat, tok: N -> Text)
    ensures EncodeFields(fields, depth, tok).Some? <==>
              forall i :: 0 <= i < |fields| ==> Encode(fields[i].value, depth, tok).Some?
    ensures EncodeFields(fields, depth, tok).Some? ==>
              var ps := EncodeFields(fields, depth, tok).value;
              forall i :: 0 <= i < |fields| ==> ps[i].0 == fields[i].key && Encode(fields[i].value, depth, tok) == Some(ps[i].1)
  {
    if fields != [] { EncodeFieldsAt(fields[1..], depth, tok); }
  }

  // ---------------------------------------------------------------- sorting by key

  lemma {:induction false} LessTotal(a: Text, b: Text)
    ensures Less(a, b) || Less(b, a) || a == b
    ensures !(Less(a, b) && Less(b, a))
    ensures !Less(a, a)
  {
    if a != [] {
      LessTotal(a[1..], a[1..]);
      if b != [] {
        LessTotal(a[1..], b[1..]);
        assert a == [a[0]] + a[1..] && b == [b[0]] + b[1..];
      }
    }
  }

  lemma {:induction false} LessTransitive(a: Text, b: Text, c: Text)
    requires Less(a, b) && Less(b, c)
    ensures Less(a, c)
  {
    if a != [] && a[0] == b[0] && b[0] == c[0] { LessTransitive(a[1..], b[1..], c[1..]); }
  }

  ghost predicate Sorted(ps: seq<(Text, Text)>) {
    forall i, k :: 0 <= i < k < |ps| ==> Less(ps[i].0, ps[k].0)
  }

  ghost predicate DistinctKeys(ps: seq<(Text, Text)>) {
    forall i, k :: 0 <= i < k < |ps| ==> ps[i].0 != ps[k].0
  }

  lemma {:induction false} InsertSorted(p: (Text, Text), ps: seq<(Text, Text)>)
    requires Sorted(ps) && forall q :: q in ps ==> q.0 != p.0
    ensures Sorted(Insert(p, ps))
    ensures |Insert(p, ps)| == |ps| + 1
    ensures forall q :: q in Insert(p, ps) <==> q == p || q in ps
  {
    if ps != [] {
      if Less(ps[0].0, p.0) {
        InsertSorted(p, ps[1..]);
        assert forall k :: 0 <= k < |Insert(p, ps[1..])| ==> Insert(p, ps[1..])[k] in Insert(p, ps[1..]);
      } else {
        LessTotal(ps[0].0, p.0);
        assert ps[0] in ps;
        forall k | 0 <= k < |ps|
          ensures Less(p.0, ps[k].0)
        {
          if k > 0 { LessTransitive(p.0, ps[0].0, ps[k].0); }
        }
      }
    }
  }

  lemma {:induction false} SortByKeySorts(ps: seq<(Text, Text)>)
    requires DistinctKeys(ps)
    ensures Sorted(SortByKey(ps))
    ensures |SortByKey(ps)| == |ps|
    ensures forall q :: q in SortByKey(ps) <==> q in ps
  {
    if ps != [] {
      SortByKeySorts(ps[1..]);
      assert forall q :: q in ps[1..] ==> q.0 != ps[0].0;
      InsertSorted(ps[0], SortByKey(ps[1..]));
      assert forall q :: q in ps <==> q == ps[0] || q in ps[1..];
    }
  }

  /** A set of members has one sorted order, whatever the insertion order. */
  lemma {:induction false} SortedUnique(ps: seq<(Text, Text)>, qs: seq<(Text, Text)>)
    requires Sorted(ps) && Sorted(qs)
    requires forall p :: p in ps <==> p in qs
    ensures ps == qs
  {
    assert |qs| > 0 ==> qs[0] in qs;
    if ps != [] {
      assert ps[0] in qs;
      assert qs[0] in ps;
      LessTotal(ps[0].0, qs[0].0);
      assert ps[0] == qs[0];
      LessTotal(ps[0].0, ps[0].0);
      assert ps[0] !in ps[1..] && qs[0] !in qs[1..];
      assert forall p :: p in ps[1..] <==> p in ps && p != ps[0];
      assert forall p :: p in qs[1..] <==> p in qs && p != qs[0];
      SortedUnique(ps[1..], qs[1..]);
      assert ps == [ps[0]] + ps[1..] && qs == [qs[0]] + qs[1..];
    }
  }

  // ---------------------------------------------------------------- equal data has equal text

  ghost function KeySet<N>(fields: seq<Field<N>>): set<Text> {
    set i | 0 <= i < |fields| :: fields[i].key
  }

  ghost predicate DistinctFields<N>(fields: seq<Field<N>>) {
    forall i, k :: 0 <= i < k < |fields| ==> fields[i].key != fields[k].key
  }

  lemma {:induction false} KeySetSize<N>(fields: seq<Field<N>>)
    requires DistinctFields(fields)
    ensures |KeySet(fields)| == |fields|
  {
    if fields != [] {
      var n := |fields| - 1;
      KeySetSize(fields[..n]);
      assert KeySet(fields) == KeySet(fields[..n]) + {fields[n].key};
    }
  }

  ghost predicate HasKey<N>(fields: seq<Field<N>>, key: Text) {
    exists i :: 0 <= i < |fields| && fields[i].key == key
  }

  /** If every key of one object is a key of another with as many fields, the converse holds too. */
  lemma KeysMatchBack<N>(xs: seq<Field<N>>, ys: seq<Field<N>>, k: nat)
    requires DistinctFields(xs) && DistinctFields(ys) && |xs| == |ys| && k < |ys|
    requires forall i :: 0 <= i < |xs| ==> HasKey(ys, xs[i].key)
    ensures HasKey(xs, ys[k].key)
  {
    KeySetSize(xs);
    KeySetSize(ys);
    assert forall i :: 0 <= i < |xs| ==> xs[i].key in KeySet(ys);
    SubsetOfSameSize(KeySet(xs), KeySet(ys));
    assert ys[k].key in KeySet(xs);
  }

  lemma SubsetOfSameSize<T>(a: set<T>, b: set<T>)
    requires a <= b && |a| == |b|
    ensures a == b
  {
    assert |b - a| == 0;
  }

  /** A field and its encoded member. */
  ghost predicate Encoded<N>(field: Field<N>, p: (Text, Text), depth: nat, tok: N -> Text) {
    p.0 == field.key && Encode(field.value, depth, tok) == Some(p.1)
  }

  /** The members of an encoded object are the encoded fields, in some order. */
  lemma FieldPairs<N>(fields: seq<Field<N>>, depth: nat, tok: N -> Text)
    requires DistinctFields(fields) && EncodeFields(fields, depth, tok).Some?
    ensures DistinctKeys(EncodeFields(fields, depth, tok).value)
    ensures forall i :: 0 <= i < |fields| ==> Encoded(fields[i], EncodeFields(fields, depth, tok).value[i], depth, tok)
  {
    EncodeFieldsAt(fields, depth, tok);
  }

  /** The field has a namesake with the same text in the other object. */
  ghost predicate HasTwin<N>(field: Field<N>, ys: seq<Field<N>>, depth: nat, tok: N -> Text) {
    exists k :: 0 <= k < |ys| && Twins(field, ys[k], depth, tok)
  }

  ghost predicate Twins<N>(f: Field<N>, g: Field<N>, depth: nat, tok: N -> Text) {
    f.key == g.key && Encode(f.value, depth, tok) == Encode(g.value, depth, tok)
  }

  lemma TwinsMatchBack<N>(xs: seq<Field<N>>, ys: seq<Field<N>>, depth: nat, tok: N -> Text, k: nat)
    requires DistinctFields(xs) && DistinctFields(ys) && |xs| == |ys| && k < |ys|
    requires forall i :: 0 <= i < |xs| ==> HasTwin(xs[i], ys, depth, tok)
    ensures HasTwin(ys[k], xs, depth, tok)
  {
    forall i | 0 <= i < |xs|
      ensures HasKey(ys, xs[i].key)
    {
      var m :| 0 <= m < |ys| && Twins(xs[i], ys[m], depth, tok);
    }
    KeysMatchBack(xs, ys, k);
    var i :| 0 <= i < |xs| && xs[i].key == ys[k].key;
    var m :| 0 <= m < |ys| && Twins(xs[i], ys[m], depth, tok);
    assert m == k;
    assert Twins(ys[k], xs[i], depth, tok);
  }

  /** Every member of one object is a member of the other. */
  lemma TwinsEncodeInto<N>(xs: seq<Field<N>>, ys: seq<Field<N>>, depth: nat, tok: N -> Text)
    requires DistinctFields(xs) && DistinctFields(ys)
    requires forall i :: 0 <= i < |xs| ==> HasTwin(xs[i], ys, depth, tok)
    requires EncodeFields(ys, depth, tok).Some?
    ensures EncodeFields(xs, depth, tok).Some?
    ensures forall p :: p in EncodeFields(xs, depth, tok).value ==> p in EncodeFields(ys, depth, tok).value
  {
    EncodeFieldsAt(xs, depth, tok);
    EncodeFieldsAt(ys, depth, tok);
    var qs := EncodeFields(ys, depth, tok).value;
    forall i | 0 <= i < |xs|
      ensures Encode(xs[i].value, depth, tok).Some? && (xs[i].key, Encode(xs[i].value, depth, tok).value) in qs
    {
      var k :| 0 <= k < |ys| && Twins(xs[i], ys[k], depth, tok);
      assert qs[k] == (xs[i].key, Encode(xs[i].value, depth, tok).value);
    }
    var ps := EncodeFields(xs, depth, tok).value;
    assert forall i :: 0 <= i < |ps| ==> ps[i] in qs;
  }

  /** Objects whose fields match one by one sort into the same members. */
  lemma SameFieldsSort<N>(xs: seq<Field<N>>, ys: seq<Field<N>>, depth: nat, tok: N -> Text)
    requires DistinctFields(xs) && DistinctFields(ys) && |xs| == |ys|
    requires forall i :: 0 <= i < |xs| ==> HasTwin(xs[i], ys, depth, tok)
    ensures EncodeFields(xs, depth, tok).Some? <==> EncodeFields(ys, depth, tok).Some?
    ensures EncodeFields(xs, depth, tok).Some? ==>
              SortByKey(EncodeFields(xs, depth, tok).value) == SortByKey(EncodeFields(ys, depth, tok).value)
  {
    forall k | 0 <= k < |ys|
      ensures HasTwin(ys[k], xs, depth, tok)
    {
      TwinsMatchBack(xs, ys, depth, tok, k);
    }
    if EncodeFields(xs, depth, tok).Some? { TwinsEncodeInto(ys, xs, depth, tok); }
    if EncodeFields(ys, depth, tok).Some? {
      TwinsEncodeInto(xs, ys, depth, tok);
      FieldPairs(xs, depth, tok);
      FieldPairs(ys, depth, tok);
      var ps, qs := EncodeFields(xs, depth, tok).value, EncodeFields(ys, depth, tok).value;
      SortByKeySorts(ps);
      SortByKeySorts(qs);
      SortedUnique(SortByKey(ps), SortByKey(qs));
    }
  }

  lemma {:induction false} SameEncodesAlike<N>(a: Json<N>, b: Json<N>, depth: nat, tok: N -> Text)
    requires WellFormed(a) && WellFormed(b) && Same(a, b)
    ensures Encode(a, depth, tok) == Encode(b, depth, tok)
    decreases a
  {
    match (a, b) {
      case (Arr(xs), Arr(ys)) =>
        forall i | 0 <= i < |xs|
          ensures Encode(xs[i], depth + 1, tok) == Encode(ys[i], depth + 1, tok)
        {
          SameEncodesAlike(xs[i], ys[i], depth + 1, tok);
        }
        EncodeItemsAt(xs, depth + 1, tok);
        EncodeItemsAt(ys, depth + 1, tok);
        if EncodeItems(xs, depth + 1, tok).Some? {
          assert EncodeItems(xs, depth + 1, tok).value == EncodeItems(ys, depth + 1, tok).value;
        }
      case (Obj(xs), Obj(ys)) =>
        forall i | 0 <= i < |xs|
          ensures HasTwin(xs[i], ys, depth + 1, tok)
        {
          var k :| 0 <= k < |ys| && xs[i].key == ys[k].key && Same(xs[i].value, ys[k].value);
          SameEncodesAlike(xs[i].value, ys[k].value, depth + 1, tok);
          assert Twins(xs[i], ys[k], depth + 1, tok);
        }
        SameFieldsSort(xs, ys, depth + 1, tok);
      case (_, _) =>
    }
  }

  // ---------------------------------------------------------------- equal text has equal data

  /** The characters of a JSON number token. */
  predicate NumberUnit(c: CodeUnit) {
    48 <= c < 58 || c == 43 || c == 45 || c == 46 || c == 101
  }

  /** Number tokens are non-empty, made of number characters, and differ for different numbers. */
  ghost predicate NumberTokens<N(!new)>(tok: N -> Text) {
    && (forall n :: tok(n) != [] && forall i :: 0 <= i < |tok(n)| ==> NumberUnit(tok(n)[i]))
    && (forall m, n :: tok(m) == tok(n) ==> m == n)
  }

  /** What may follow a value: nothing, or punctuation that continues or closes its container. */
  predicate Ends(x: Text) {
    x == [] || x[0] == COMMA || x[0] == CLOSE_BRACKET || x[0] == CLOSE_BRACE
  }

  /** The number of number characters at the start of a text. */
  function NumberRun(t: Text): nat {
    if t == [] || !NumberUnit(t[0]) then 0 else 1 + NumberRun(t[1..])
  }

  lemma {:induction false} NumberRunOfToken(p: Text, x: Text)
    requires forall i :: 0 <= i < |p| ==> NumberUnit(p[i])
    requires Ends(x)
    ensures NumberRun(p + x) == |p|
  {
    if p == [] {
      assert p + x == x;
    } else {
      assert (p + x)[1..] == p[1..] + x;
      NumberRunOfToken(p[1..], x);
    }
  }

  /** Number tokens end where their number characters end. */
  lemma NumberTokensSplit(p: Text, q: Text, x: Text, y: Text)
    requires forall i :: 0 <= i < |p| ==> NumberUnit(p[i])
    requires forall i :: 0 <= i < |q| ==> NumberUnit(q[i])
    requires Ends(x) && Ends(y) && p + x == q + y
    ensures p == q && x == y
  {
    NumberRunOfToken(p, x);
    NumberRunOfToken(q, y);
    assert p == (p + x)[..|p|] == (q + y)[..|q|] == q;
    assert x == (p + x)[|p|..] == (q + y)[|q|..] == y;
  }

  /** The first character of a value's text tells its kind. */
  lemma FirstUnit<N(!new)>(j: Json<N>, depth: nat, tok: N -> Text)
    requires NumberTokens(tok) && Encode(j, depth, tok).Some?
    ensures var t := Encode(j, depth, tok).value;
            && t != [] && !Ends(t)
            && (j.Null? <==> t[0] == 110)
            && (j.Bool? <==> t[0] == 116 || t[0] == 102)
            && (j.Number? <==> NumberUnit(t[0]))
            && (j.Str? <==> t[0] == QUOTE)
            && (j.Arr? <==> t[0] == OPEN_BRACKET)
            && (j.Obj? <==> t[0] == OPEN_BRACE)
  {
  }

  lemma SplitAtLength(s: Text, t: Text, x: Text, y: Text)
    requires |s| == |t| && s + x == t + y
    ensures s == t && x == y
  {
    assert s == (s + x)[..|s|] == (t + y)[..|t|] == t;
    assert x == (s + x)[|s|..] == (t + y)[|t|..] == y;
  }

  /** Scalars are self-delimiting. */
  lemma ScalarsSplit<N(!new)>(a: Json<N>, b: Json<N>, depth: nat, tok: N -> Text, x: Text, y: Text)
    requires NumberTokens(tok) && Encode(a, depth, tok).Some? && Encode(b, depth, tok).Some?
    requires !a.Arr? && !a.Obj?
    requires Ends(x) && Ends(y)
    requires Encode(a, depth, tok).value + x == Encode(b, depth, tok).value + y
    ensures a == b && x == y
  {
    var s, t := Encode(a, depth, tok).value, Encode(b, depth, tok).value;
    FirstUnit(a, depth, tok);
    FirstUnit(b, depth, tok);
    assert s[0] == (s + x)[0] == (t + y)[0] == t[0];
    if a.Number? {
      NumberTokensSplit(s, t, x, y);
    } else if a.Str? {
      QuoteInjective(a.s, b.s, x, y);
    } else {
      SplitAtLength(s, t, x, y);
    }
  }

  /** What follows the first of several joined texts. */
  function AfterFirst(ts: seq<Text>, close: Text): Text
    requires ts != []
  {
    if |ts| == 1 then close else [COMMA] + (Join(ts[1..]) + close)
  }

  lemma JoinCons(ts: seq<Text>, close: Text)
    requires ts != []
    ensures Join(ts) + close == ts[0] + AfterFirst(ts, close)
  {
    if |ts| > 1 {
      var rest := Join(ts[1..]);
      assert Join(ts) == ts[0] + [COMMA] + rest;
      assert AfterFirst(ts, close) == [COMMA] + (rest + close);
      hide Join, AfterFirst;
      Regroup(ts[0], [COMMA], rest, close);
      assert [COMMA] + rest + close == [COMMA] + (rest + close);
    }
  }

  /** A closing bracket or brace, and what follows its container. */
  predicate Closes(c: CodeUnit) {
    c == CLOSE_BRACKET || c == CLOSE_BRACE
  }

  lemma AfterFirstSplits(ts: seq<Text>, us: seq<Text>, c: CodeUnit, x: Text, y: Text)
    requires ts != [] && us != [] && Closes(c)
    requires AfterFirst(ts, [c] + x) == AfterFirst(us, [c] + y)
    ensures |ts| == 1 <==> |us| == 1
    ensures |ts| == 1 ==> x == y
    ensures |ts| > 1 ==> Join(ts[1..]) + ([c] + x) == Join(us[1..]) + ([c] + y)
  {
    var s, t := AfterFirst(ts, [c] + x), AfterFirst(us, [c] + y);
    assert |ts| == 1 <==> s[0] == c;
    assert |us| == 1 <==> t[0] == c;
    if |ts| == 1 {
      assert s[1..] == x && t[1..] == y;
    } else {
      assert s[1..] == Join(ts[1..]) + ([c] + x) && t[1..] == Join(us[1..]) + ([c] + y);
    }
  }

  lemma AfterFirstEnds(ts: seq<Text>, c: CodeUnit, x: Text)
    requires ts != [] && Closes(c)
    ensures Ends(AfterFirst(ts, [c] + x))
  {
  }

  /** An empty container and a non-empty one never have the same text. */
  lemma EmptyJoinSplits(ts: seq<Text>, us: seq<Text>, c: CodeUnit, x: Text, y: Text)
    requires Closes(c) && (ts == [] || us == [])
    requires ts != [] ==> ts[0] != [] && ts[0][0] != c
    requires us != [] ==> us[0] != [] && us[0][0] != c
    requires Join(ts) + ([c] + x) == Join(us) + ([c] + y)
    ensures ts == [] && us == [] && x == y
  {
    if ts != [] { JoinCons(ts, [c] + x); }
    if us != [] { JoinCons(us, [c] + y); }
    var s, t := Join(ts) + ([c] + x), Join(us) + ([c] + y);
    assert ts == [] <==> s[0] == c;
    assert us == [] <==> t[0] == c;
    assert s[1..] == x && t[1..] == y;
  }

  /** Arrays are self-delimiting, item by item. */
  lemma {:induction false} ItemsSplit<N(!new)>(
      xs: seq<Json<N>>, ys: seq<Json<N>>, depth: nat, tok: N -> Text, x: Text, y: Text)
    requires NumberTokens(tok)
    requires forall i :: 0 <= i < |xs| ==> WellFormed(xs[i])
    requires forall i :: 0 <= i < |ys| ==> WellFormed(ys[i])
    requires EncodeItems(xs, depth, tok).Some? && EncodeItems(ys, depth, tok).Some?
    requires Join(EncodeItems(xs, depth, tok).value) + ([CLOSE_BRACKET] + x) ==
             Join(EncodeItems(ys, depth, tok).value) + ([CLOSE_BRACKET] + y)
    ensures |xs| == |ys| && x == y
    ensures forall i :: 0 <= i < |xs| ==> Same(xs[i], ys[i])
    decreases xs, 0
  {
    hide Join, AfterFirst, Encode, WellFormed, Same, NumberTokens;
    var ts, us := EncodeItems(xs, depth, tok).value, EncodeItems(ys, depth, tok).value;
    if xs == [] || ys == [] {
      if xs != [] { FirstUnit(xs[0], depth, tok); }
      if ys != [] { FirstUnit(ys[0], depth, tok); }
      EmptyJoinSplits(ts, us, CLOSE_BRACKET, x, y);
    } else {
      JoinCons(ts, [CLOSE_BRACKET] + x);
      JoinCons(us, [CLOSE_BRACKET] + y);
      AfterFirstEnds(ts, CLOSE_BRACKET, x);
      AfterFirstEnds(us, CLOSE_BRACKET, y);
      ValuesSplit(xs[0], ys[0], depth, tok, AfterFirst(ts, [CLOSE_BRACKET] + x), AfterFirst(us, [CLOSE_BRACKET] + y));
      AfterFirstSplits(ts, us, CLOSE_BRACKET, x, y);
      if |ts| > 1 { ItemsSplit(xs[1..], ys[1..], depth, tok, x, y); }
    }
  }

  /** The pair is the encoding of one of the fields. */
  ghost predicate From<N>(p: (Text, Text), fields: seq<Field<N>>, depth: nat, tok: N -> Text) {
    exists i :: 0 <= i < |fields| && Encoded(fields[i], p, depth, tok)
  }

  /** Two pairs come from fields with one key and the same data. */
  ghost predicate SameMember<N>(
    p: (Text, Text), q: (Text, Text), xs: seq<Field<N>>, ys: seq<Field<N>>, depth: nat, tok: N -> Text)
  {
    exists i, k :: 0 <= i < |xs| && 0 <= k < |ys| && SameField(xs[i], ys[k], p, q, depth, tok)
  }

  ghost predicate SameField<N>(
    f: Field<N>, g: Field<N>, p: (Text, Text), q: (Text, Text), depth: nat, tok: N -> Text)
  {
    Encoded(f, p, depth, tok) && Encoded(g, q, depth, tok) && f.key == g.key && Same(f.value, g.value)
  }

  lemma MemberAssociates(p: (Text, Text), x: Text)
    ensures Member(p) + x == Quote(p.0) + ([COLON] + (p.1 + x))
  {
    hide Quote;
    assert Quote(p.0) + [COLON] + p.1 + x == Quote(p.0) + ([COLON] + (p.1 + x));
  }

  /** A member's text gives its key and the text of its value. */
  lemma MemberSplits(p: (Text, Text), q: (Text, Text), x: Text, y: Text)
    requires Member(p) + x == Member(q) + y
    ensures p.0 == q.0 && p.1 + x == q.1 + y
  {
    hide Quote, Member;
    MemberAssociates(p, x);
    MemberAssociates(q, y);
    var s, t := [COLON] + (p.1 + x), [COLON] + (q.1 + y);
    QuoteInjective(p.0, q.0, s, t);
    assert p.1 + x == s[1..] == t[1..] == q.1 + y;
  }

  lemma {:induction false} FirstMemberSplits<N(!new)>(
      p: (Text, Text), q: (Text, Text), xs: seq<Field<N>>, ys: seq<Field<N>>, depth: nat, tok: N -> Text, x: Text, y: Text)
    requires NumberTokens(tok)
    requires forall i :: 0 <= i < |xs| ==> WellFormed(xs[i].value)
    requires forall i :: 0 <= i < |ys| ==> WellFormed(ys[i].value)
    requires From(p, xs, depth, tok) && From(q, ys, depth, tok)
    requires Ends(x) && Ends(y) && Member(p) + x == Member(q) + y
    ensures SameMember(p, q, xs, ys, depth, tok) && x == y
    decreases xs, 0
  {
    hide Encode, WellFormed, Same, NumberTokens, Member, Ends;
    var i :| 0 <= i < |xs| && Encoded(xs[i], p, depth, tok);
    var k :| 0 <= k < |ys| && Encoded(ys[k], q, depth, tok);
    MemberSplits(p, q, x, y);
    ValuesSplit(xs[i].value, ys[k].value, depth, tok, x, y);
    assert SameField(xs[i], ys[k], p, q, depth, tok);
  }

  lemma MembersCons(ps: seq<(Text, Text)>)
    requires ps != []
    ensures Members(ps)[1..] == Members(ps[1..]) && Members(ps)[0] == Member(ps[0])
    ensures Members(ps)[0] != [] && Members(ps)[0][0] == QUOTE
  {
  }

  /** Joined members are self-delimiting, member by member. */
  lemma {:induction false} MembersSplit<N(!new)>(
      ps: seq<(Text, Text)>, qs: seq<(Text, Text)>, xs: seq<Field<N>>, ys: seq<Field<N>>,
      depth: nat, tok: N -> Text, x: Text, y: Text)
    requires NumberTokens(tok)
    requires forall i :: 0 <= i < |xs| ==> WellFormed(xs[i].value)
    requires forall i :: 0 <= i < |ys| ==> WellFormed(ys[i].value)
    requires forall i :: 0 <= i < |ps| ==> From(ps[i], xs, depth, tok)
    requires forall i :: 0 <= i < |qs| ==> From(qs[i], ys, depth, tok)
    requires Join(Members(ps)) + ([CLOSE_BRACE] + x) == Join(Members(qs)) + ([CLOSE_BRACE] + y)
    ensures |ps| == |qs| && x == y
    ensures forall i :: 0 <= i < |ps| ==> SameMember(ps[i], qs[i], xs, ys, depth, tok)
    decreases xs, 1, |ps|
  {
    hide Join, AfterFirst, WellFormed, NumberTokens, Member, From, SameMember, Ends;
    var ts, us := Members(ps), Members(qs);
    if ps != [] { MembersCons(ps); }
    if qs != [] { MembersCons(qs); }
    if ps == [] || qs == [] {
      EmptyJoinSplits(ts, us, CLOSE_BRACE, x, y);
    } else {
      JoinCons(ts, [CLOSE_BRACE] + x);
      JoinCons(us, [CLOSE_BRACE] + y);
      AfterFirstEnds(ts, CLOSE_BRACE, x);
      AfterFirstEnds(us, CLOSE_BRACE, y);
      FirstMemberSplits(ps[0], qs[0], xs, ys, depth, tok, AfterFirst(ts, [CLOSE_BRACE] + x), AfterFirst(us, [CLOSE_BRACE] + y));
      AfterFirstSplits(ts, us, CLOSE_BRACE, x, y);
      if |ts| > 1 { MembersSplit(ps[1..], qs[1..], xs, ys, depth, tok, x, y); }
    }
  }

  /** Sorting keeps every member the encoding of a field. */
  lemma SortedMembersFrom<N>(fields: seq<Field<N>>, depth: nat, tok: N -> Text)
    requires DistinctFields(fields) && EncodeFields(fields, depth, tok).Some?
    ensures var ps := EncodeFields(fields, depth, tok).value;
            && |SortByKey(ps)| == |fields|
            && (forall i :: 0 <= i < |ps| ==> SortByKey(ps)[i] in ps)
            && (forall i :: 0 <= i < |ps| ==> From(SortByKey(ps)[i], fields, depth, tok))
            && (forall i :: 0 <= i < |fields| ==> ps[i] in SortByKey(ps) && Encoded(fields[i], ps[i], depth, tok))
  {
    hide Encode, Encoded, SortByKey;
    FieldPairs(fields, depth, tok);
    var ps := EncodeFields(fields, depth, tok).value;
    SortByKeySorts(ps);
    forall i | 0 <= i < |ps|
      ensures SortByKey(ps)[i] in ps && From(SortByKey(ps)[i], fields, depth, tok)
    {
      var p := SortByKey(ps)[i];
      assert p in SortByKey(ps);
      var k :| 0 <= k < |ps| && ps[k] == p;
      assert Encoded(fields[k], p, depth, tok);
    }
  }

  /** Objects are self-delimiting, and their members say what their fields were. */
  lemma {:induction false} FieldsSplit<N(!new)>(
      xs: seq<Field<N>>, ys: seq<Field<N>>, depth: nat, tok: N -> Text, x: Text, y: Text)
    requires NumberTokens(tok) && DistinctFields(xs) && DistinctFields(ys)
    requires forall i :: 0 <= i < |xs| ==> WellFormed(xs[i].value)
    requires forall i :: 0 <= i < |ys| ==> WellFormed(ys[i].value)
    requires EncodeFields(xs, depth, tok).Some? && EncodeFields(ys, depth, tok).Some?
    requires Join(Members(SortByKey(EncodeFields(xs, depth, tok).value))) + ([CLOSE_BRACE] + x) ==
             Join(Members(SortByKey(EncodeFields(ys, depth, tok).value))) + ([CLOSE_BRACE] + y)
    ensures |xs| == |ys| && x == y
    ensures forall i :: 0 <= i < |xs| ==> exists k :: 0 <= k < |ys| && xs[i].key == ys[k].key && Same(xs[i].value, ys[k].value)
    decreases xs, 2
  {
    hide Join, Members, SortByKey, WellFormed, NumberTokens, EncodeFields, Encode, Same;
    SortedMembersFrom(xs, depth, tok);
    SortedMembersFrom(ys, depth, tok);
    var ps, qs := SortByKey(EncodeFields(xs, depth, tok).value), SortByKey(EncodeFields(ys, depth, tok).value);
    MembersSplit(ps, qs, xs, ys, depth, tok, x, y);
    forall i | 0 <= i < |xs|
      ensures exists k :: 0 <= k < |ys| && xs[i].key == ys[k].key && Same(xs[i].value, ys[k].value)
    {
      var m :| 0 <= m < |ps| && ps[m] == EncodeFields(xs, depth, tok).value[i];
      assert SameMember(ps[m], qs[m], xs, ys, depth, tok);
      var i', k :| 0 <= i' < |xs| && 0 <= k < |ys| && SameField(xs[i'], ys[k], ps[m], qs[m], depth, tok);
      assert i' == i;
    }
  }

  /** Taking the opening bracket off both texts, and moving the closing one to the continuation. */
  lemma BodiesEqual(o: CodeUnit, c: CodeUnit, s: Text, t: Text, x: Text, y: Text)
    requires [o] + s + [c] + x == [o] + t + [c] + y
    ensures s + ([c] + x) == t + ([c] + y)
  {
    assert s + ([c] + x) == ([o] + s + [c] + x)[1..];
    assert t + ([c] + y) == ([o] + t + [c] + y)[1..];
  }

  /** Two value texts followed by the end of their containers agree only if the values are the same data. */
  lemma {:induction false} ValuesSplit<N(!new)>(
      a: Json<N>, b: Json<N>, depth: nat, tok: N -> Text, x: Text, y: Text)
    requires NumberTokens(tok) && WellFormed(a) && WellFormed(b)
    requires Encode(a, depth, tok).Some? && Encode(b, depth, tok).Some?
    requires Ends(x) && Ends(y)
    requires Encode(a, depth, tok).value + x == Encode(b, depth, tok).value + y
    ensures Same(a, b) && x == y
    decreases a, 3
  {
    hide Join, Members, SortByKey, NumberTokens, Quote, Ends;
    var s, t := Encode(a, depth, tok).value, Encode(b, depth, tok).value;
    if !a.Arr? && !a.Obj? {
      ScalarsSplit(a, b, depth, tok, x, y);
    } else {
      FirstUnit(a, depth, tok);
      FirstUnit(b, depth, tok);
      assert s[0] == (s + x)[0] == (t + y)[0] == t[0];
      if a.Arr? {
        BodiesEqual(OPEN_BRACKET, CLOSE_BRACKET, Join(EncodeItems(a.items, depth + 1, tok).value),
                    Join(EncodeItems(b.items, depth + 1, tok).value), x, y);
        ItemsSplit(a.items, b.items, depth + 1, tok, x, y);
      } else {
        BodiesEqual(OPEN_BRACE, CLOSE_BRACE, Join(Members(SortByKey(EncodeFields(a.fields, depth + 1, tok).value))),
                    Join(Members(SortByKey(EncodeFields(b.fields, depth + 1, tok).value))), x, y);
        FieldsSplit(a.fields, b.fields, depth + 1, tok, x, y);
      }
    }
  }

  /** Two encodable values have one canonical text exactly when they are the same JSON data. */
  lemma CanonicalTextDecidesEquality<N(!new)>(a: Json<N>, b: Json<N>, tok: N -> Text)
    requires NumberTokens(tok) && WellFormed(a) && WellFormed(b)
    requires CanonicalText(a, tok).Some? && CanonicalText(b, tok).Some?
    ensures CanonicalText(a, tok) == CanonicalText(b, tok) <==> Same(a, b)
  {
    if CanonicalText(a, tok) == CanonicalText(b, tok) {
      assert CanonicalText(a, tok).value + [] == CanonicalText(b, tok).value + [];
      ValuesSplit(a, b, 0, tok, [], []);
    }
    if Same(a, b) { SameEncodesAlike(a, b, 0, tok); }
  }

  // ---------------------------------------------------------------- what can be encoded

  /** Nothing in the tree is outside the JSON data model, and no value lies deeper than `room` levels. */
  ghost predicate Encodable<N>(j: Json<N>, room: int) {
    && room >= 0
    && !j.Rejected?
    && (j.Arr? ==> forall i :: 0 <= i < |j.items| ==> Encodable(j.items[i], room - 1))
    && (j.Obj? ==> forall i :: 0 <= i < |j.fields| ==> Encodable(j.fields[i].value, room - 1))
  }

  /** The encoder refuses exactly the trees with foreign values or more than 256 levels below the root. */
  lemma {:induction false} EncodesExactlyJson<N>(j: Json<N>, depth: nat, tok: N -> Text)
    ensures Encode(j, depth, tok).Some? <==> Encodable(j, MAX_DEPTH - depth)
    decreases j
  {
    if j.Arr? {
      forall i | 0 <= i < |j.items|
        ensures Encode(j.items[i], depth + 1, tok).Some? <==> Encodable(j.items[i], MAX_DEPTH - depth - 1)
      {
        EncodesExactlyJson(j.items[i], depth + 1, tok);
      }
      EncodeItemsAt(j.items, depth + 1, tok);
    } else if j.Obj? {
      forall i | 0 <= i < |j.fields|
        ensures Encode(j.fields[i].value, depth + 1, tok).Some? <==> Encodable(j.fields[i].value, MAX_DEPTH - depth - 1)
      {
        EncodesExactlyJson(j.fields[i].value, depth + 1, tok);
      }
      EncodeFieldsAt(j.fields, depth + 1, tok);
    }
  }

  // ---------------------------------------------------------------- moderation preimages

  function Unit(c: char): CodeUnit {
    if c < '\U{10000}' then c as int else 0xFFFD
  }

  /** The code units of a literal in the basic multilingual plane. */
  function Units(s: string): Text {
    seq(|s|, i requires 0 <= i < |s| => Unit(s[i]))
  }

  const VERSION_1 := Units("agenc-task-moderation-c14n-v1")
  const VERSION_2 := Units("agenc-task-moderation-c14n-v2")
  const VERSION_KEY := Units("canonicalizationVersion")
  const PAYLOAD_KEY := Units("payload")

  function Envelope<N>(version: Text, payload: Json<N>): Json<N> {
    Obj([Field(VERSION_KEY, Str(version)), Field(PAYLOAD_KEY, payload)])
  }

  /** The bytes hashed for a moderation payload under one canonicalization version. */
  function Preimage<N>(version: Text, payload: Json<N>, tok: N -> Text): Option<Text> {
    CanonicalText(Envelope(version, payload), tok)
  }

  lemma KeysDiffer()
    ensures VERSION_KEY != PAYLOAD_KEY
    ensures VERSION_1 != VERSION_2
  {
    assert |VERSION_KEY| == 23 && |PAYLOAD_KEY| == 7;
    assert VERSION_1[28] != VERSION_2[28];
  }

  lemma EnvelopesSame<N>(v: Text, w: Text, p: Json<N>, q: Json<N>)
    requires WellFormed(p) && WellFormed(q)
    ensures WellFormed(Envelope(v, p))
    ensures Same(Envelope(v, p), Envelope(w, q)) <==> v == w && Same(p, q)
  {
    KeysDiffer();
    hide VERSION_KEY, PAYLOAD_KEY;
    var xs, ys := Envelope(v, p).fields, Envelope(w, q).fields;
    assert xs[0] == Field(VERSION_KEY, Str(v)) && xs[1] == Field(PAYLOAD_KEY, p);
    assert ys[0] == Field(VERSION_KEY, Str(w)) && ys[1] == Field(PAYLOAD_KEY, q);
    assert Same(xs[0].value, ys[0].value) <==> v == w;
  }

  /** A preimage names its version and its payload: two coincide only for the same version and the same data. */
  lemma PreimageDecidesVersionAndPayload<N(!new)>(v: Text, w: Text, p: Json<N>, q: Json<N>, tok: N -> Text)
    requires NumberTokens(tok) && WellFormed(p) && WellFormed(q)
    requires Preimage(v, p, tok).Some? && Preimage(w, q, tok).Some?
    ensures Preimage(v, p, tok) == Preimage(w, q, tok) <==> v == w && Same(p, q)
  {
    hide Same, WellFormed, CanonicalText, NumberTokens, Envelope;
    EnvelopesSame(v, w, p, q);
    EnvelopesSame(w, v, q, p);
    CanonicalTextDecidesEquality(Envelope(v, p), Envelope(w, q), tok);
  }

  /** The v1 and the v2 wire never share a preimage, whatever the payloads. */
  lemma VersionsNeverCollide<N(!new)>(p: Json<N>, q: Json<N>, tok: N -> Text)
    requires NumberTokens(tok) && WellFormed(p) && WellFormed(q)
    requires Preimage(VERSION_1, p, tok).Some? && Preimage(VERSION_2, q, tok).Some?
    ensures Preimage(VERSION_1, p, tok) != Preimage(VERSION_2, q, tok)
  {
    KeysDiffer();
    PreimageDecidesVersionAndPayload(VERSION_1, VERSION_2, p, q, tok);
  }
}
