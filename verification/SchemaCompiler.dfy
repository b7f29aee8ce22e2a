/** Tool input schemas, compiled to validators, against what a schema says keyword by keyword and location by location. */
module SchemaCompiler {
  import opened Wrappers

  /** A JavaScript number. `Object.is` tells the two zeros apart, arithmetic does not. */
  datatype Number = Finite(r: real) | NegativeZero | NotANumber | Infinite(negative: bool)

  /** A JavaScript value. Records are plain objects; `Exotic` is everything else that is not JSON. */
  datatype Value =
    | Undefined
    | Null
    | Bool(b: bool)
    | Num(n: Number)
    | Str(s: string)
    | Arr(items: seq<Value>)
    | Rec(fields: map<string, Value>)
    | Exotic(id: nat)

  /** Whether a string has a named format; some formats depend on the declared maximum length. */
  type Formats = (string, string, Option<nat>) -> bool

  type Validator = Value -> bool

  const MAX_SAFE: real := 9007199254740991.0

  const PROPERTY_KEYS: set<string> :=
    {"type", "description", "minLength", "maxLength", "items", "minItems", "maxItems", "enum", "minimum", "maximum",
     "default", "properties", "required", "additionalProperties", "format", "examples"}

  const ROOT_KEYS: set<string> := {"type", "properties", "required", "additionalProperties", "description"}

  const FORMATS: set<string> :=
    {"solana-address", "hex-32", "nonzero-hex-32", "hex-64", "uint64", "nonzero-uint64", "int64", "uri", "http-url",
     "kebab-token", "listing-name"}

  datatype Kind = AString | ANumber | AnInteger | ABoolean | AnArray | AnObject

  function KindOf(v: Value): Option<Kind> {
    if !v.Str? then None
    else if v.s == "string" then Some(AString)
    else if v.s == "number" then Some(ANumber)
    else if v.s == "integer" then Some(AnInteger)
    else if v.s == "boolean" then Some(ABoolean)
    else if v.s == "array" then Some(AnArray)
    else if v.s == "object" then Some(AnObject)
    else None
  }

  /** Reading a property; an absent one is undefined. */
  function Get(v: Value, key: string): Value {
    if v.Rec? && key in v.fields then v.fields[key] else Undefined
  }

  predicate IsFinite(n: Number) { n.Finite? || n.NegativeZero? }

  function Real(n: Number): real
    requires IsFinite(n)
  {
    if n.Finite? then n.r else 0.0
  }

  predicate IsSafeInteger(n: Number) {
    IsFinite(n) && Real(n) == Real(n).Floor as real && -MAX_SAFE <= Real(n) <= MAX_SAFE
  }

  // ---------------------------------------------------------------- facets

  /** A finite number, nothing, or something that is neither. */
  function Bound(v: Value): Option<Option<real>> {
    if v.Undefined? then Some(None)
    else if v.Num? && IsFinite(v.n) then Some(Some(Real(v.n)))
    else None
  }

  function Count(v: Value): Option<Option<nat>> {
    if v.Undefined? then Some(None)
    else if v.Num? && IsSafeInteger(v.n) && Real(v.n) >= 0.0 then Some(Some(Real(v.n).Floor))
    else None
  }

  predicate OrderedReals(low: Option<real>, high: Option<real>) { low.Some? && high.Some? ==> low.value <= high.value }

  predicate OrderedNats(low: Option<nat>, high: Option<nat>) { low.Some? && high.Some? ==> low.value <= high.value }

  /** What the compiler extracts from one schema node. */
  datatype Facets = Facets(
    kind: Kind, minimum: Option<real>, maximum: Option<real>, minLength: Option<nat>, maxLength: Option<nat>,
    minItems: Option<nat>, maxItems: Option<nat>, format: Option<string>,
    required: seq<string>, additional: bool, declared: set<string>, allowed: Option<seq<Value>>)

  /** The local rules of one node, without its children. */
  predicate Check(f: Facets, v: Value, formats: Formats) {
    && (match f.kind
        case AString =>
          && v.Str? && (f.format.Some? ==> formats(f.format.value, v.s, f.maxLength))
          && (f.minLength.Some? ==> |v.s| >= f.minLength.value) && (f.maxLength.Some? ==> |v.s| <= f.maxLength.value)
        case ANumber => v.Num? && IsFinite(v.n)
        case AnInteger => v.Num? && IsSafeInteger(v.n)
        case ABoolean => v.Bool?
        case AnArray =>
          && v.Arr? && (f.minItems.Some? ==> |v.items| >= f.minItems.value)
          && (f.maxItems.Some? ==> |v.items| <= f.maxItems.value)
        case AnObject =>
          && v.Rec? && (forall i :: 0 <= i < |f.required| ==> f.required[i] in v.fields)
          && (f.additional || forall k :: k in v.fields ==> k in f.declared))
    && (f.allowed.Some? ==> v in f.allowed.value)
    && (v.Num? && IsFinite(v.n) ==>
          (f.minimum.Some? ==> Real(v.n) >= f.minimum.value) && (f.maximum.Some? ==> Real(v.n) <= f.maximum.value))
  }

  /** A list of distinct strings, all declared. */
  predicate RequiredOk(v: Value, declared: set<string>) {
    v.Undefined? ||
    (v.Arr? && (forall i :: 0 <= i < |v.items| ==> v.items[i].Str? && v.items[i].s in declared)
     && forall i, j :: 0 <= i < j < |v.items| ==> v.items[i] != v.items[j])
  }

  function Names(v: Value): seq<string> {
    if v.Arr? then seq(|v.items|, i requires 0 <= i < |v.items| => if v.items[i].Str? then v.items[i].s else "") else []
  }

  predicate EnumEntryOk(kind: Kind, v: Value) {
    || (kind.AString? && v.Str?)
    || (kind.ANumber? && v.Num? && IsFinite(v.n))
    || (kind.AnInteger? && v.Num? && IsSafeInteger(v.n))
  }

  /** Two enum entries print alike: the zeros do. */
  predicate PrintAlike(a: Value, b: Value) {
    a == b || (a.Num? && b.Num? && IsFinite(a.n) && IsFinite(b.n) && Real(a.n) == Real(b.n))
  }

  predicate EnumOk(kind: Kind, v: Value) {
    v.Undefined? ||
    (v.Arr? && v.items != [] && (forall i :: 0 <= i < |v.items| ==> EnumEntryOk(kind, v.items[i]))
     && forall i, j :: 0 <= i < j < |v.items| ==> !PrintAlike(v.items[i], v.items[j]))
  }

  /** The property schemas of an object node; a missing or null `properties` declares nothing. */
  function Declared(s: Value): Option<map<string, Value>> {
    var p := Get(s, "properties");
    if p.Rec? then Some(p.fields) else if p.Undefined? || p.Null? then Some(map[]) else None
  }

  /** The keywords of a node, as far as the node itself depends on them. */
  datatype Node = Node(
    kind: Option<Kind>, description: Value, minimum: Value, maximum: Value, minLength: Value, maxLength: Value,
    minItems: Value, maxItems: Value, format: Value, required: Value, entries: Value, examples: Value,
    hasItems: bool, stray: bool, declared: Option<set<string>>, closable: bool, open: bool)

  function NodeOf(s: Value): Node {
    var additional, declared := Get(s, "additionalProperties"), Declared(s);
    Node(KindOf(Get(s, "type")), Get(s, "description"), Get(s, "minimum"), Get(s, "maximum"), Get(s, "minLength"),
         Get(s, "maxLength"), Get(s, "minItems"), Get(s, "maxItems"), Get(s, "format"), Get(s, "required"),
         Get(s, "enum"), Get(s, "examples"), !Get(s, "items").Undefined?,
         // object keywords on another type
         KindOf(Get(s, "type")) != Some(AnObject)
         && !(Get(s, "properties").Undefined? && Get(s, "required").Undefined? && additional.Undefined?),
         if declared.Some? then Some(declared.value.Keys) else None,
         additional.Undefined? || additional.Bool?, additional == Bool(true))
  }

  /** The facets of a node, if the node by itself is a legal schema. */
  function FacetsOf(s: Value): Option<Facets> {
    if s.Rec? && s.fields.Keys <= PROPERTY_KEYS then FacetsFrom(NodeOf(s)) else None
  }

  function FacetsFrom(n: Node): Option<Facets> {
    var minimum, maximum := Bound(n.minimum), Bound(n.maximum);
    var minLength, maxLength := Count(n.minLength), Count(n.maxLength);
    var minItems, maxItems := Count(n.minItems), Count(n.maxItems);
    if n.kind.None? || !(n.description.Undefined? || n.description.Str?) then None
    else if minimum.None? || maximum.None? || minLength.None? || maxLength.None? || minItems.None? || maxItems.None? then None
    else
      var kind := n.kind.value;
      if (minimum.value.Some? || maximum.value.Some?) && !kind.ANumber? && !kind.AnInteger? then None
      else if (minLength.value.Some? || maxLength.value.Some?) && !kind.AString? then None
      else if (minItems.value.Some? || maxItems.value.Some?) && !kind.AnArray? then None
      else if !OrderedReals(minimum.value, maximum.value) || !OrderedNats(minLength.value, maxLength.value)
              || !OrderedNats(minItems.value, maxItems.value) then None
      else if !n.format.Undefined? && !(kind.AString? && n.format.Str? && n.format.s in FORMATS) then None
      else if kind.AnArray? != n.hasItems || n.stray then None
      else if kind.AnObject? && (n.declared.None? || !n.closable || !RequiredOk(n.required, n.declared.value)) then None
      else if !EnumOk(kind, n.entries) || !(n.examples.Undefined? || n.examples.Arr?) then None
      else
        Some(Facets(kind, minimum.value, maximum.value, minLength.value, maxLength.value, minItems.value, maxItems.value,
                    if n.format.Str? then Some(n.format.s) else None, Names(n.required), n.open,
                    if n.declared.Some? then n.declared.value else {},
                    if n.entries.Arr? then Some(n.entries.items) else None))
  }

  // ---------------------------------------------------------------- the compiler

  /** Compiled children, or nothing if one of them does not compile. */
  function Compiled(children: map<string, Option<Validator>>): Option<map<string, Validator>> {
    if forall k :: k in children ==> children[k].Some? then Some(map k | k in children :: children[k].value) else None
  }

  /** The validator of one node, from its facets and its children's validators. */
  function Assemble(f: Facets, fields: map<string, Validator>, item: Option<Validator>, formats: Formats): Validator {
    (v: Value) =>
      && Check(f, v, formats)
      && (f.kind.AnArray? && v.Arr? && item.Some? ==> forall i :: 0 <= i < |v.items| ==> item.value(v.items[i]))
      && (f.kind.AnObject? && v.Rec? ==> forall k :: k in v.fields && k in fields ==> fields[k](v.fields[k]))
  }

  /** A schema's own default and examples must pass its validator. */
  predicate SamplesPass(s: Value, validator: Validator) {
    && (s.Rec? && "default" in s.fields ==> validator(s.fields["default"]))
    && (Get(s, "examples").Arr? ==> forall i :: 0 <= i < |Get(s, "examples").items| ==> validator(Get(s, "examples").items[i]))
  }

  function Sampled(s: Value, validator: Validator): Option<Validator> {
    if SamplesPass(s, validator) then Some(validator) else None
  }

  /** `compilePropertyValidator`: nothing stands for a thrown schema error. */
  function Compile(s: Value, formats: Formats): Option<Validator>
    decreases s
  {
    match FacetsOf(s)
    case None => None
    case Some(f) =>
      if f.kind.AnArray? then
        if s.Rec? && "items" in s.fields then
          match Compile(s.fields["items"], formats)
          case None => None
          case Some(item) => Sampled(s, Assemble(f, map[], Some(item), formats))
        else None
      else if f.kind.AnObject? then
        var children := if s.Rec? && "properties" in s.fields && s.fields["properties"].Rec?
                        then map k | k in s.fields["properties"].fields :: Compile(s.fields["properties"].fields[k], formats)
                        else map[];
        match Compiled(children)
        case None => None
        case Some(fields) => Sampled(s, Assemble(f, fields, None, formats))
      else Sampled(s, Assemble(f, map[], None, formats))
  }

  // ---------------------------------------------------------------- what a schema says, location by location

  /** One step down into a value or a schema. */
  datatype Step = Field(name: string) | Item(index: nat)

  function Part(v: Value, step: Step): Option<Value> {
    match step
    case Field(name) => if v.Rec? && name in v.fields then Some(v.fields[name]) else None
    case Item(i) => if v.Arr? && i < |v.items| then Some(v.items[i]) else None
  }

  /** The value at a path, if the path leads anywhere. */
  function ValueAt(v: Value, path: seq<Step>): Option<Value> {
    if path == [] then Some(v)
    else
      match Part(v, path[0])
      case None => None
      case Some(part) => ValueAt(part, path[1..])
  }

  /** The child schema that governs one step, if any does. */
  function Child(s: Value, step: Step): Option<Value> {
    match step
    case Field(name) =>
      if KindOf(Get(s, "type")) == Some(AnObject) && Get(s, "properties").Rec? && name in Get(s, "properties").fields
      then Some(Get(s, "properties").fields[name]) else None
    case Item(_) =>
      if KindOf(Get(s, "type")) == Some(AnArray) && !Get(s, "items").Undefined? then Some(Get(s, "items")) else None
  }

  /** The schema that governs a path, if any does. */
  function SchemaAt(s: Value, path: seq<Step>): Option<Value> {
    if path == [] then Some(s)
    else
      match Child(s, path[0])
      case None => None
      case Some(child) => SchemaAt(child, path[1..])
  }

  // ---------------------------------------------------------------- what each keyword says

  /** The six types. An integer is a number that is a whole number of at most 53 bits. */
  ghost predicate TypeAllows(name: Value, v: Value) {
    && (name == Str("string") ==> v.Str?)
    && (name == Str("number") ==> v.Num? && IsFinite(v.n))
    && (name == Str("integer") ==> IsWhole(v))
    && (name == Str("boolean") ==> v.Bool?)
    && (name == Str("array") ==> v.Arr?)
    && (name == Str("object") ==> v.Rec?)
  }

  ghost predicate IsWhole(v: Value) {
    v.Num? && IsFinite(v.n) && exists k :: Denotes(Real(v.n), k)
  }

  predicate Denotes(r: real, k: int) { r == k as real && -9007199254740991 <= k <= 9007199254740991 }

  /** A bound and what it measures, when both are finite numbers. */
  predicate AtLeast(bound: Value, amount: real) { bound.Num? && IsFinite(bound.n) ==> amount >= Real(bound.n) }

  predicate AtMost(bound: Value, amount: real) { bound.Num? && IsFinite(bound.n) ==> amount <= Real(bound.n) }

  ghost predicate EnumAllows(entries: Value, v: Value) {
    entries.Arr? ==> exists i :: 0 <= i < |entries.items| && entries.items[i] == v
  }

  predicate RequiredAllows(required: Value, v: Value) {
    required.Arr? && v.Rec? ==>
      forall i :: 0 <= i < |required.items| && required.items[i].Str? ==> required.items[i].s in v.fields
  }

  /** A property schema by this name. */
  predicate Declares(s: Value, name: string) {
    Get(s, "properties").Rec? && name in Get(s, "properties").fields
  }

  /** An object admits undeclared properties only if it says so. */
  predicate AdditionalAllows(s: Value, v: Value) {
    Get(s, "type") == Str("object") && v.Rec? && Get(s, "additionalProperties") != Bool(true) ==>
      forall k :: k in v.fields ==> Declares(s, k)
  }

  /** The limit a `uri` format may take from the maximum length. */
  function LengthLimit(bound: Value): Option<nat> {
    if bound.Num? && IsFinite(bound.n) && Real(bound.n) >= 0.0 then Some(Real(bound.n).Floor) else None
  }

  predicate FormatAllows(format: Value, limit: Value, v: Value, formats: Formats) {
    format.Str? && v.Str? ==> formats(format.s, v.s, LengthLimit(limit))
  }

  /** What a schema node asks of a value, keyword by keyword; the parts of the value are its children's business. */
  ghost predicate Allows(s: Value, v: Value, formats: Formats) {
    && TypeAllows(Get(s, "type"), v)
    && EnumAllows(Get(s, "enum"), v)
    && (v.Num? && IsFinite(v.n) ==> AtLeast(Get(s, "minimum"), Real(v.n)) && AtMost(Get(s, "maximum"), Real(v.n)))
    && (v.Str? ==> AtLeast(Get(s, "minLength"), |v.s| as real) && AtMost(Get(s, "maxLength"), |v.s| as real))
    && (v.Arr? ==> AtLeast(Get(s, "minItems"), |v.items| as real) && AtMost(Get(s, "maxItems"), |v.items| as real))
    && FormatAllows(Get(s, "format"), Get(s, "maxLength"), v, formats)
    && RequiredAllows(Get(s, "required"), v)
    && AdditionalAllows(s, v)
  }

  // ---------------------------------------------------------------- which nodes are legal

  predicate HasType(s: Value, types: set<string>) { Get(s, "type").Str? && Get(s, "type").s in types }

  predicate IsAmount(v: Value) { v.Num? && IsFinite(v.n) }

  /** Bounds are numbers of the right sort, on the right type, and in order. */
  predicate BoundsLegal(s: Value, low: string, high: string, types: set<string>) {
    && (!Get(s, low).Undefined? || !Get(s, high).Undefined? ==> HasType(s, types))
    && (Get(s, low).Undefined? || IsAmount(Get(s, low))) && (Get(s, high).Undefined? || IsAmount(Get(s, high)))
    && (IsAmount(Get(s, low)) && IsAmount(Get(s, high)) ==> Real(Get(s, low).n) <= Real(Get(s, high).n))
  }

  ghost predicate CountLegal(v: Value) { v.Undefined? || (IsWhole(v) && Real(v.n) >= 0.0) }

  predicate FormatLegal(s: Value) {
    Get(s, "format").Undefined? || (HasType(s, {"string"}) && Get(s, "format").Str? && Get(s, "format").s in FORMATS)
  }

  /** Only an object says anything of properties, and it requires only declared ones, each once. */
  predicate ObjectLegal(s: Value) {
    var properties, required, additional := Get(s, "properties"), Get(s, "required"), Get(s, "additionalProperties");
    if HasType(s, {"object"}) then
      && (properties.Rec? || properties.Undefined? || properties.Null?)
      && (additional.Undefined? || additional.Bool?)
      && (required.Undefined? || required.Arr?)
      && (required.Arr? ==>
            && (forall i :: 0 <= i < |required.items| ==> required.items[i].Str? && Declares(s, required.items[i].s))
            && (forall i, j :: 0 <= i < |required.items| && 0 <= j < |required.items| && i != j ==>
                  required.items[i] != required.items[j]))
    else properties.Undefined? && required.Undefined? && additional.Undefined?
  }

  /** An enumeration is a non-empty list of strings or numbers of the node's type, no two of which print alike. */
  ghost predicate EnumLegal(s: Value) {
    var entries := Get(s, "enum");
    entries.Undefined? ||
    (&& entries.Arr? && |entries.items| > 0
     && (forall i :: 0 <= i < |entries.items| ==> EnumEntryLegal(s, entries.items[i]))
     && (forall i, j :: 0 <= i < |entries.items| && 0 <= j < |entries.items| && i != j ==>
           !PrintsAs(entries.items[i], entries.items[j])))
  }

  ghost predicate EnumEntryLegal(s: Value, v: Value) {
    HasType(s, {"string", "number", "integer"}) && TypeAllows(Get(s, "type"), v)
  }

  /** Equal texts, or equal numbers: the two zeros print alike. */
  predicate PrintsAs(a: Value, b: Value) {
    (a.Str? && b.Str? && a.s == b.s) || (IsAmount(a) && IsAmount(b) && Real(a.n) == Real(b.n))
  }

  /** A node's own keywords are legal. */
  ghost predicate WellFormed(s: Value) {
    && s.Rec? && (forall k :: k in s.fields ==> k in PROPERTY_KEYS)
    && HasType(s, {"string", "number", "integer", "boolean", "array", "object"})
    && (Get(s, "description").Undefined? || Get(s, "description").Str?)
    && BoundsLegal(s, "minimum", "maximum", {"number", "integer"})
    && BoundsLegal(s, "minLength", "maxLength", {"string"})
    && BoundsLegal(s, "minItems", "maxItems", {"array"})
    && CountLegal(Get(s, "minLength")) && CountLegal(Get(s, "maxLength"))
    && CountLegal(Get(s, "minItems")) && CountLegal(Get(s, "maxItems"))
    && FormatLegal(s)
    && (HasType(s, {"array"}) <==> !Get(s, "items").Undefined?)
    && ObjectLegal(s) && EnumLegal(s)
    && (Get(s, "examples").Undefined? || Get(s, "examples").Arr?)
  }

  /** At no location does the value break a keyword of the schema that governs it. */
  ghost predicate Conforms(s: Value, v: Value, formats: Formats) {
    forall path :: FineAt(s, v, path, formats)
  }

  ghost predicate FineAt(s: Value, v: Value, path: seq<Step>, formats: Formats) {
    SchemaAt(s, path).Some? && ValueAt(v, path).Some? ==> Allows(SchemaAt(s, path).value, ValueAt(v, path).value, formats)
  }

  /** A node is legal by itself, and its default and examples conform to it. */
  ghost predicate LegalNode(s: Value, formats: Formats) {
    && WellFormed(s)
    && ("default" in s.fields ==> Conforms(s, s.fields["default"], formats))
    && (Get(s, "examples").Arr? ==>
          forall i :: 0 <= i < |Get(s, "examples").items| ==> Conforms(s, Get(s, "examples").items[i], formats))
  }

  /** Every node of the schema is legal. */
  ghost predicate Legal(s: Value, formats: Formats) {
    forall path :: SchemaAt(s, path).Some? ==> LegalNode(SchemaAt(s, path).value, formats)
  }

  // ---------------------------------------------------------------- the facets are the keywords

  lemma WholeIsSafe(v: Value)
    ensures IsWhole(v) <==> v.Num? && IsSafeInteger(v.n)
  {
    if v.Num? && IsSafeInteger(v.n) {
      var k := Real(v.n).Floor;
      assert Denotes(Real(v.n), k);
    }
  }

  lemma KindIsType(s: Value)
    ensures KindOf(Get(s, "type")) == Some(AString) <==> HasType(s, {"string"})
    ensures KindOf(Get(s, "type")) == Some(ANumber) <==> HasType(s, {"number"})
    ensures KindOf(Get(s, "type")) == Some(AnInteger) <==> HasType(s, {"integer"})
    ensures KindOf(Get(s, "type")) == Some(ABoolean) <==> HasType(s, {"boolean"})
    ensures KindOf(Get(s, "type")) == Some(AnArray) <==> HasType(s, {"array"})
    ensures KindOf(Get(s, "type")) == Some(AnObject) <==> HasType(s, {"object"})
    ensures KindOf(Get(s, "type")).None? <==> !HasType(s, {"string", "number", "integer", "boolean", "array", "object"})
    ensures HasType(s, {"number", "integer"}) <==> KindOf(Get(s, "type")) in {Some(ANumber), Some(AnInteger)}
    ensures HasType(s, {"string", "number", "integer"}) <==> KindOf(Get(s, "type")) in {Some(AString), Some(ANumber), Some(AnInteger)}
  {
  }

  /** Parsed bounds, and what they say of an amount. */
  lemma BoundIsAmount(v: Value, amount: real)
    ensures Bound(v).Some? <==> v.Undefined? || IsAmount(v)
    ensures Bound(v).Some? ==> (AtLeast(v, amount) <==> (Bound(v).value.Some? ==> amount >= Bound(v).value.value))
    ensures Bound(v).Some? ==> (AtMost(v, amount) <==> (Bound(v).value.Some? ==> amount <= Bound(v).value.value))
    ensures Bound(v).Some? ==> (Bound(v).value.Some? <==> IsAmount(v))
    ensures Bound(v).Some? && IsAmount(v) ==> Bound(v).value == Some(Real(v.n))
  {
  }

  lemma CountIsWhole(v: Value, amount: nat)
    ensures Count(v).Some? <==> CountLegal(v)
    ensures Count(v).Some? ==> (AtLeast(v, amount as real) <==> (Count(v).value.Some? ==> amount >= Count(v).value.value))
    ensures Count(v).Some? ==> (AtMost(v, amount as real) <==> (Count(v).value.Some? ==> amount <= Count(v).value.value))
    ensures Count(v).Some? ==> (Count(v).value.Some? <==> IsAmount(v))
    ensures Count(v).Some? && IsAmount(v) ==> Count(v).value.value as real == Real(v.n) && Count(v).value == LengthLimit(v)
    ensures CountLegal(v) ==> v.Undefined? || IsAmount(v)
  {
    WholeIsSafe(v);
  }

  lemma EnumAgrees(s: Value)
    requires KindOf(Get(s, "type")).Some?
    ensures EnumOk(KindOf(Get(s, "type")).value, Get(s, "enum")) <==> EnumLegal(s)
  {
    KindIsType(s);
    var entries := Get(s, "enum");
    if entries.Arr? {
      forall i | 0 <= i < |entries.items|
        ensures EnumEntryOk(KindOf(Get(s, "type")).value, entries.items[i]) <==> EnumEntryLegal(s, entries.items[i])
      {
        WholeIsSafe(entries.items[i]);
      }
      hide KindOf, Get, IsWhole, IsSafeInteger;
      if EnumLegal(s) {
        forall i, j | 0 <= i < j < |entries.items|
          ensures !PrintAlike(entries.items[i], entries.items[j])
        {
          assert EnumEntryLegal(s, entries.items[i]) && !PrintsAs(entries.items[i], entries.items[j]);
        }
      }
    }
  }

  lemma ObjectAgrees(s: Value)
    requires KindOf(Get(s, "type")) == Some(AnObject)
    ensures ObjectLegal(s) <==> NodeOf(s).declared.Some? && NodeOf(s).closable && RequiredOk(Get(s, "required"), NodeOf(s).declared.value)
  {
    KindIsType(s);
    hide KindOf;
    if Declared(s).Some? {
      assert forall k :: Declares(s, k) <==> k in Declared(s).value.Keys;
    }
  }

  lemma BoundsAgree(s: Value, low: string, high: string, types: set<string>)
    ensures var a, b := Bound(Get(s, low)), Bound(Get(s, high));
            BoundsLegal(s, low, high, types) <==>
              && a.Some? && b.Some? && OrderedReals(a.value, b.value)
              && (a.value.Some? || b.value.Some? ==> HasType(s, types))
  {
    BoundIsAmount(Get(s, low), 0.0);
    BoundIsAmount(Get(s, high), 0.0);
    hide Get, HasType;
  }

  lemma CountsAgree(s: Value, low: string, high: string, types: set<string>)
    ensures var a, b := Count(Get(s, low)), Count(Get(s, high));
            BoundsLegal(s, low, high, types) && CountLegal(Get(s, low)) && CountLegal(Get(s, high)) <==>
              && a.Some? && b.Some? && OrderedNats(a.value, b.value)
              && (a.value.Some? || b.value.Some? ==> HasType(s, types))
  {
    CountIsWhole(Get(s, low), 0);
    CountIsWhole(Get(s, high), 0);
    hide Get, HasType, Count, CountLegal, AtLeast, AtMost, LengthLimit;
  }

  /** The compiler extracts facets from exactly the well-formed nodes. */
  lemma FacetsAreKeywords(s: Value)
    ensures FacetsOf(s).Some? <==> WellFormed(s)
  {
    KindIsType(s);
    BoundsAgree(s, "minimum", "maximum", {"number", "integer"});
    CountsAgree(s, "minLength", "maxLength", {"string"});
    CountsAgree(s, "minItems", "maxItems", {"array"});
    if KindOf(Get(s, "type")).Some? { EnumAgrees(s); }
    if KindOf(Get(s, "type")) == Some(AnObject) { ObjectAgrees(s); }
    hide KindOf, Get, Bound, Count, CountLegal, BoundsLegal, OrderedReals, OrderedNats, EnumOk, EnumLegal, RequiredOk;
  }

  /** Where each facet comes from. */
  lemma FacetFields(s: Value)
    requires FacetsOf(s).Some?
    ensures var f := FacetsOf(s).value;
            && KindOf(Get(s, "type")) == Some(f.kind)
            && Bound(Get(s, "minimum")) == Some(f.minimum) && Bound(Get(s, "maximum")) == Some(f.maximum)
            && Count(Get(s, "minLength")) == Some(f.minLength) && Count(Get(s, "maxLength")) == Some(f.maxLength)
            && Count(Get(s, "minItems")) == Some(f.minItems) && Count(Get(s, "maxItems")) == Some(f.maxItems)
            && f.format == (if Get(s, "format").Str? then Some(Get(s, "format").s) else None)
            && f.required == Names(Get(s, "required")) && f.additional == (Get(s, "additionalProperties") == Bool(true))
            && (f.kind.AnObject? ==> Declared(s).Some? && f.declared == Declared(s).value.Keys)
            && f.allowed == (if Get(s, "enum").Arr? then Some(Get(s, "enum").items) else None)
            && (f.kind.AnObject? ==> RequiredOk(Get(s, "required"), f.declared))
            && (f.kind.AnObject? || Get(s, "required").Undefined?)
  {
    hide KindOf, Get, Bound, Count, EnumOk, RequiredOk, Names, Declared;
  }

  lemma LengthsAgree(low: Value, high: Value, size: nat)
    requires Count(low).Some? && Count(high).Some?
    ensures (AtLeast(low, size as real) && AtMost(high, size as real)) <==>
              (Count(low).value.Some? ==> size >= Count(low).value.value) && (Count(high).value.Some? ==> size <= Count(high).value.value)
    ensures LengthLimit(high) == Count(high).value
  {
    CountIsWhole(low, size);
    CountIsWhole(high, size);
    hide AtLeast, AtMost;
    if high.Undefined? { assert LengthLimit(high).None?; }
  }

  lemma AmountsAgree(low: Value, high: Value, amount: real)
    requires Bound(low).Some? && Bound(high).Some?
    ensures (AtLeast(low, amount) && AtMost(high, amount)) <==>
              (Bound(low).value.Some? ==> amount >= Bound(low).value.value) && (Bound(high).value.Some? ==> amount <= Bound(high).value.value)
  {
    BoundIsAmount(low, amount);
    BoundIsAmount(high, amount);
  }

  /** A required name is present, an undeclared one is admitted: as the facets say, so the keywords. */
  lemma ObjectsAgree(s: Value, v: Value)
    requires FacetsOf(s).Some? && FacetsOf(s).value.kind.AnObject? && v.Rec?
    ensures var f := FacetsOf(s).value;
            && (RequiredAllows(Get(s, "required"), v) <==> forall i :: 0 <= i < |f.required| ==> f.required[i] in v.fields)
            && (AdditionalAllows(s, v) <==> (f.additional || forall k :: k in v.fields ==> k in f.declared))
  {
    FacetFields(s);
    KindIsType(s);
    hide FacetsOf, KindOf;
    var f, required := FacetsOf(s).value, Get(s, "required");
    assert forall k :: Declares(s, k) <==> k in f.declared;
    if required.Arr? {
      assert forall i :: 0 <= i < |f.required| ==> required.items[i].Str? && f.required[i] == required.items[i].s;
    }
  }

  lemma TypesAgree(s: Value, v: Value)
    requires KindOf(Get(s, "type")).Some?
    ensures TypeAllows(Get(s, "type"), v) <==>
              match KindOf(Get(s, "type")).value
              case AString => v.Str?
              case ANumber => v.Num? && IsFinite(v.n)
              case AnInteger => v.Num? && IsSafeInteger(v.n)
              case ABoolean => v.Bool?
              case AnArray => v.Arr?
              case AnObject => v.Rec?
  {
    KindIsType(s);
    WholeIsSafe(v);
    hide KindOf, IsWhole, IsSafeInteger;
  }

  /** The facets' check is what the keywords say. */
  lemma ChecksAreKeywords(s: Value, v: Value, formats: Formats)
    requires FacetsOf(s).Some?
    ensures Check(FacetsOf(s).value, v, formats) <==> Allows(s, v, formats)
  {
    FacetFields(s);
    KindIsType(s);
    WholeIsSafe(v);
    if v.Num? && IsFinite(v.n) { AmountsAgree(Get(s, "minimum"), Get(s, "maximum"), Real(v.n)); }
    if v.Str? { LengthsAgree(Get(s, "minLength"), Get(s, "maxLength"), |v.s|); }
    if v.Arr? { LengthsAgree(Get(s, "minItems"), Get(s, "maxItems"), |v.items|); }
    var f := FacetsOf(s).value;
    if f.kind.AnObject? && v.Rec? { ObjectsAgree(s, v); }
    hide FacetsOf, KindOf, Get, Bound, Count, IsWhole, IsSafeInteger, RequiredOk, AtLeast, AtMost, Names, LengthLimit, Declares, Declared;
    assert EnumAllows(Get(s, "enum"), v) <==> (f.allowed.Some? ==> v in f.allowed.value);
    hide EnumAllows;
    TypesAgree(s, v);
    hide TypeAllows;
  }

  // ---------------------------------------------------------------- one level at a time

  ghost predicate PartsConform(s: Value, v: Value, formats: Formats) {
    forall step :: Child(s, step).Some? && Part(v, step).Some? ==> Conforms(Child(s, step).value, Part(v, step).value, formats)
  }

  /** A value conforms when it is fine itself and its governed parts conform. */
  lemma ConformsByParts(s: Value, v: Value, formats: Formats)
    ensures Conforms(s, v, formats) <==> Allows(s, v, formats) && PartsConform(s, v, formats)
  {
    hide FacetsOf, Check, Allows, Child, Part;
    if Conforms(s, v, formats) {
      assert FineAt(s, v, [], formats);
      forall step | Child(s, step).Some? && Part(v, step).Some?
        ensures Conforms(Child(s, step).value, Part(v, step).value, formats)
      {
        forall path
          ensures FineAt(Child(s, step).value, Part(v, step).value, path, formats)
        {
          assert FineAt(s, v, [step] + path, formats);
          assert ([step] + path)[1..] == path;
        }
      }
    }
    if Allows(s, v, formats) && PartsConform(s, v, formats) {
      forall path
        ensures FineAt(s, v, path, formats)
      {
        if path != [] && Child(s, path[0]).Some? && Part(v, path[0]).Some? {
          assert FineAt(Child(s, path[0]).value, Part(v, path[0]).value, path[1..], formats);
        }
      }
    }
  }

  ghost predicate ChildrenLegal(s: Value, formats: Formats) {
    forall step :: Child(s, step).Some? ==> Legal(Child(s, step).value, formats)
  }

  /** A schema is legal when its root node is and its children are. */
  lemma LegalByChildren(s: Value, formats: Formats)
    ensures Legal(s, formats) <==> LegalNode(s, formats) && ChildrenLegal(s, formats)
  {
    hide FacetsOf, LegalNode, Child;
    if Legal(s, formats) {
      assert SchemaAt(s, []) == Some(s);
      forall step | Child(s, step).Some?
        ensures Legal(Child(s, step).value, formats)
      {
        forall path | SchemaAt(Child(s, step).value, path).Some?
          ensures LegalNode(SchemaAt(Child(s, step).value, path).value, formats)
        {
          assert ([step] + path)[1..] == path;
          assert SchemaAt(s, [step] + path) == SchemaAt(Child(s, step).value, path);
        }
      }
    }
    if LegalNode(s, formats) && ChildrenLegal(s, formats) {
      forall path | SchemaAt(s, path).Some?
        ensures LegalNode(SchemaAt(s, path).value, formats)
      {
        if path != [] { assert Legal(Child(s, path[0]).value, formats); }
      }
    }
  }

  // ---------------------------------------------------------------- the compiler is exact

  /** The validator agrees with the meaning of the schema. */
  ghost predicate Exact(s: Value, validator: Validator, formats: Formats) {
    forall v :: validator(v) <==> Conforms(s, v, formats)
  }

  /** The governed parts of an array are its items. */
  lemma ArrayParts(s: Value, v: Value, formats: Formats)
    requires FacetsOf(s).Some? && FacetsOf(s).value.kind.AnArray? && s.Rec? && "items" in s.fields
    ensures PartsConform(s, v, formats) <==>
              (v.Arr? ==> forall i :: 0 <= i < |v.items| ==> Conforms(s.fields["items"], v.items[i], formats))
  {
    ItemChild(s);
    hide FacetsOf, Child, Conforms;
    if PartsConform(s, v, formats) && v.Arr? {
      forall i | 0 <= i < |v.items|
        ensures Conforms(s.fields["items"], v.items[i], formats)
      {
        assert Child(s, Item(i)).Some? && Part(v, Item(i)) == Some(v.items[i]);
      }
    }
  }

  /** An array's validator, from an exact validator of its items. */
  lemma ArrayIsExact(s: Value, item: Validator, formats: Formats)
    requires FacetsOf(s).Some? && FacetsOf(s).value.kind.AnArray?
    requires s.Rec? && "items" in s.fields && Exact(s.fields["items"], item, formats)
    ensures Exact(s, Assemble(FacetsOf(s).value, map[], Some(item), formats), formats)
  {
    var f := FacetsOf(s).value;
    hide FacetsOf, Check, KindOf, Conforms, PartsConform, Allows;
    forall v
      ensures Assemble(f, map[], Some(item), formats)(v) <==> Conforms(s, v, formats)
    {
      ConformsByParts(s, v, formats);
      ChecksAreKeywords(s, v, formats);
      ArrayParts(s, v, formats);
    }
  }

  lemma KindIsFacet(s: Value)
    requires FacetsOf(s).Some?
    ensures KindOf(Get(s, "type")) == Some(FacetsOf(s).value.kind)
    ensures FacetsOf(s).value.kind.AnArray? ==> s.Rec? && "items" in s.fields && !Get(s, "items").Undefined?
    ensures FacetsOf(s).value.kind.AnObject? ==> Declared(s).Some?
  {
  }

  /** An object's validator, from exact validators of its declared properties. */
  lemma ObjectIsExact(s: Value, fields: map<string, Validator>, formats: Formats)
    requires FacetsOf(s).Some? && FacetsOf(s).value.kind.AnObject? && Declared(s).Some?
    requires fields.Keys == Declared(s).value.Keys
    requires forall k :: k in fields ==> Exact(Declared(s).value[k], fields[k], formats)
    ensures Exact(s, Assemble(FacetsOf(s).value, fields, None, formats), formats)
  {
    var f := FacetsOf(s).value;
    KindIsFacet(s);
    hide FacetsOf, Check, KindOf, Allows, Conforms;
    forall v
      ensures Assemble(f, fields, None, formats)(v) <==> Conforms(s, v, formats)
    {
      ConformsByParts(s, v, formats);
      ChecksAreKeywords(s, v, formats);
      if PartsConform(s, v, formats) && v.Rec? {
        forall k | k in v.fields && k in fields
          ensures fields[k](v.fields[k])
        {
          assert Child(s, Field(k)) == Some(Declared(s).value[k]) && Part(v, Field(k)) == Some(v.fields[k]);
        }
      }
    }
  }

  /** A leaf's validator is its local rules. */
  lemma LeafIsExact(s: Value, formats: Formats)
    requires FacetsOf(s).Some? && !FacetsOf(s).value.kind.AnArray? && !FacetsOf(s).value.kind.AnObject?
    ensures Exact(s, Assemble(FacetsOf(s).value, map[], None, formats), formats)
  {
    var f := FacetsOf(s).value;
    KindIsFacet(s);
    hide FacetsOf, Check, KindOf, Allows, Conforms;
    forall v
      ensures Assemble(f, map[], None, formats)(v) <==> Conforms(s, v, formats)
    {
      ConformsByParts(s, v, formats);
      ChecksAreKeywords(s, v, formats);
    }
  }

  /** Once the validator is exact, the samples pass when they conform. */
  lemma SamplesDecide(s: Value, validator: Validator, formats: Formats)
    requires FacetsOf(s).Some? && Exact(s, validator, formats)
    ensures SamplesPass(s, validator) <==> LegalNode(s, formats)
  {
    assert s.Rec?;
    FacetsAreKeywords(s);
    hide FacetsOf, Conforms, WellFormed;
  }

  lemma ItemChild(s: Value)
    requires FacetsOf(s).Some? && FacetsOf(s).value.kind.AnArray?
    ensures s.Rec? && "items" in s.fields
    ensures forall i :: Child(s, Item(i)) == Some(s.fields["items"])
    ensures forall name :: Child(s, Field(name)).None?
  {
    KindIsFacet(s);
    hide FacetsOf, KindOf;
  }

  lemma FieldChildren(s: Value)
    requires FacetsOf(s).Some? && FacetsOf(s).value.kind.AnObject?
    ensures Declared(s).Some?
    ensures forall i :: Child(s, Item(i)).None?
    ensures forall k :: Child(s, Field(k)) == if k in Declared(s).value then Some(Declared(s).value[k]) else None
  {
    KindIsFacet(s);
    hide FacetsOf, KindOf;
  }

  lemma NoChildren(s: Value)
    requires FacetsOf(s).Some? && !FacetsOf(s).value.kind.AnArray? && !FacetsOf(s).value.kind.AnObject?
    ensures forall step :: Child(s, step).None?
  {
    KindIsFacet(s);
    hide FacetsOf, KindOf;
  }

  lemma ArrayChildrenLegal(s: Value, formats: Formats)
    requires FacetsOf(s).Some? && FacetsOf(s).value.kind.AnArray? && s.Rec? && "items" in s.fields
    ensures ChildrenLegal(s, formats) <==> Legal(s.fields["items"], formats)
  {
    ItemChild(s);
    hide FacetsOf, Legal, Child;
    assert Child(s, Item(0)) == Some(s.fields["items"]);
  }

  lemma ArrayCompilation(s: Value, formats: Formats)
    requires FacetsOf(s).Some? && FacetsOf(s).value.kind.AnArray? && s.Rec? && "items" in s.fields
    ensures Compile(s, formats) ==
            match Compile(s.fields["items"], formats)
            case None => None
            case Some(item) => Sampled(s, Assemble(FacetsOf(s).value, map[], Some(item), formats))
  {
    hide FacetsOf, Assemble, Sampled;
  }

  /** What the compiler does with an array node. */
  lemma ArrayCompiles(s: Value, formats: Formats)
    requires FacetsOf(s).Some? && FacetsOf(s).value.kind.AnArray? && s.Rec? && "items" in s.fields
    requires var items := s.fields["items"];
             (Compile(items, formats).Some? <==> Legal(items, formats))
             && (Compile(items, formats).Some? ==> Exact(items, Compile(items, formats).value, formats))
    ensures Compile(s, formats).Some? <==> Legal(s, formats)
    ensures Compile(s, formats).Some? ==> Exact(s, Compile(s, formats).value, formats)
  {
    hide FacetsOf, Assemble, SamplesPass, LegalNode, Legal, Exact, Child, Compile, ChildrenLegal;
    ArrayChildrenLegal(s, formats);
    LegalByChildren(s, formats);
    ArrayCompilation(s, formats);
    var items := s.fields["items"];
    if Compile(items, formats).Some? {
      ArrayIsExact(s, Compile(items, formats).value, formats);
      SamplesDecide(s, Assemble(FacetsOf(s).value, map[], Compile(items, formats), formats), formats);
    }
  }

  lemma LeafCompiles(s: Value, formats: Formats)
    requires FacetsOf(s).Some? && !FacetsOf(s).value.kind.AnArray? && !FacetsOf(s).value.kind.AnObject?
    ensures Compile(s, formats).Some? <==> Legal(s, formats)
    ensures Compile(s, formats).Some? ==> Exact(s, Compile(s, formats).value, formats)
  {
    NoChildren(s);
    LegalByChildren(s, formats);
    LeafIsExact(s, formats);
    SamplesDecide(s, Assemble(FacetsOf(s).value, map[], None, formats), formats);
    hide FacetsOf, Assemble, SamplesPass, LegalNode, Legal, Exact, Child;
  }

  /** The validators of the declared properties, once each compiles. */
  function FieldValidators(s: Value, formats: Formats): map<string, Validator>
    requires Declared(s).Some? && forall k :: k in Declared(s).value ==> Compile(Declared(s).value[k], formats).Some?
  {
    map k | k in Declared(s).value :: Compile(Declared(s).value[k], formats).value
  }

  lemma ObjectChildrenLegal(s: Value, formats: Formats)
    requires FacetsOf(s).Some? && FacetsOf(s).value.kind.AnObject? && Declared(s).Some?
    ensures ChildrenLegal(s, formats) <==> forall k :: k in Declared(s).value ==> Legal(Declared(s).value[k], formats)
  {
    FieldChildren(s);
    hide FacetsOf, Legal, Child, Declared;
    forall k | k in Declared(s).value
      ensures ChildrenLegal(s, formats) ==> Legal(Declared(s).value[k], formats)
    {
      assert Child(s, Field(k)).Some?;
    }
  }

  ghost predicate AllCompile(s: Value, formats: Formats)
    requires Declared(s).Some?
  {
    forall k :: k in Declared(s).value ==> Compile(Declared(s).value[k], formats).Some?
  }

  lemma ObjectCompiles(s: Value, formats: Formats)
    requires FacetsOf(s).Some? && FacetsOf(s).value.kind.AnObject? && Declared(s).Some?
    requires forall k :: k in Declared(s).value ==>
               (Compile(Declared(s).value[k], formats).Some? <==> Legal(Declared(s).value[k], formats))
    requires forall k :: k in Declared(s).value && Compile(Declared(s).value[k], formats).Some? ==>
               Exact(Declared(s).value[k], Compile(Declared(s).value[k], formats).value, formats)
    ensures Compile(s, formats).Some? <==> Legal(s, formats)
    ensures Compile(s, formats).Some? ==> Exact(s, Compile(s, formats).value, formats)
  {
    hide FacetsOf, Assemble, SamplesPass, LegalNode, Legal, Exact, Child, Compile, ChildrenLegal, Declared;
    ObjectChildrenLegal(s, formats);
    LegalByChildren(s, formats);
    ObjectCompilation(s, formats);
    if AllCompile(s, formats) {
      ObjectIsExact(s, FieldValidators(s, formats), formats);
      SamplesDecide(s, Assemble(FacetsOf(s).value, FieldValidators(s, formats), None, formats), formats);
    }
  }

  /** The compiled children are those of the declared properties. */
  ghost predicate ChildrenOf(s: Value, children: map<string, Option<Validator>>, formats: Formats)
    requires Declared(s).Some?
  {
    && children.Keys == Declared(s).value.Keys
    && forall k :: k in children ==> children[k] == Compile(Declared(s).value[k], formats)
  }

  lemma ChildrenAreDeclared(s: Value, formats: Formats, children: map<string, Option<Validator>>)
    requires Declared(s).Some?
    requires children == if s.Rec? && "properties" in s.fields && s.fields["properties"].Rec?
                         then map k | k in s.fields["properties"].fields :: Compile(s.fields["properties"].fields[k], formats)
                         else map[]
    ensures ChildrenOf(s, children, formats)
  {
    hide Compile;
  }

  lemma ChildrenCompiled(s: Value, children: map<string, Option<Validator>>, formats: Formats)
    requires Declared(s).Some? && ChildrenOf(s, children, formats)
    ensures Compiled(children) == if AllCompile(s, formats) then Some(FieldValidators(s, formats)) else None
  {
    hide Compile, Declared;
    if AllCompile(s, formats) {
      assert (map k | k in children :: children[k].value) == FieldValidators(s, formats);
    } else {
      var k :| k in Declared(s).value && Compile(Declared(s).value[k], formats).None?;
      assert k in children && !children[k].Some?;
    }
  }

  /** The compiler's result for an object node. */
  lemma ObjectCompilation(s: Value, formats: Formats)
    requires FacetsOf(s).Some? && FacetsOf(s).value.kind.AnObject? && Declared(s).Some?
    ensures Compile(s, formats) ==
            if AllCompile(s, formats)
            then Sampled(s, Assemble(FacetsOf(s).value, FieldValidators(s, formats), None, formats)) else None
  {
    hide FacetsOf, Assemble, Sampled, Declared, Compiled;
    var children: map<string, Option<Validator>> :=
      if s.Rec? && "properties" in s.fields && s.fields["properties"].Rec?
      then map k | k in s.fields["properties"].fields :: Compile(s.fields["properties"].fields[k], formats)
      else map[];
    ChildrenAreDeclared(s, formats, children);
    ChildrenCompiled(s, children, formats);
  }

  /**
   The compiler accepts exactly the schemas in which every node is legal, and the validator it returns accepts
   exactly the values that break no local rule at any location.
   */
  lemma {:induction false} CompilerIsExact(s: Value, formats: Formats)
    ensures Compile(s, formats).Some? <==> Legal(s, formats)
    ensures Compile(s, formats).Some? ==> forall v :: Compile(s, formats).value(v) <==> Conforms(s, v, formats)
    decreases s
  {
    if FacetsOf(s).None? {
      LegalByChildren(s, formats);
      FacetsAreKeywords(s);
      hide FacetsOf, WellFormed;
    } else if FacetsOf(s).value.kind.AnArray? {
      ItemChild(s);
      CompilerIsExact(s.fields["items"], formats);
      hide FacetsOf, Compile, Legal, Child, Conforms;
      ArrayCompiles(s, formats);
    } else if FacetsOf(s).value.kind.AnObject? {
      FieldChildren(s);
      hide FacetsOf, Compile, Legal, Child, Conforms;
      forall k | k in Declared(s).value
        ensures Compile(Declared(s).value[k], formats).Some? <==> Legal(Declared(s).value[k], formats)
        ensures Compile(Declared(s).value[k], formats).Some? ==>
                  Exact(Declared(s).value[k], Compile(Declared(s).value[k], formats).value, formats)
      {
        CompilerIsExact(Declared(s).value[k], formats);
      }
      ObjectCompiles(s, formats);
    } else {
      hide FacetsOf, Compile, Legal, Child, Conforms;
      LeafCompiles(s, formats);
    }
  }

  // ---------------------------------------------------------------- tool schemas and written-out defaults

  /** `compileToolInputValidator` on the schema: an object schema with fewer keywords, whose properties are mandatory. */
  function CompileRoot(s: Value, formats: Formats): Option<Validator> {
    if s.Rec? && s.fields.Keys <= ROOT_KEYS && Get(s, "type") == Str("object") && Get(s, "properties").Rec?
    then Compile(s, formats) else None
  }

  /** `applyObjectSchemaDefaults`: `additionalProperties: false` is written out at every object node. */
  function ApplyDefaults(s: Value): Value
    decreases s
  {
    if !s.Rec? then s
    else if Get(s, "type") == Str("object") then
      var closed := if "additionalProperties" in s.fields then s.fields else s.fields["additionalProperties" := Bool(false)];
      if "properties" in s.fields && s.fields["properties"].Rec? then
        Rec(closed["properties" := Rec(map k | k in s.fields["properties"].fields :: ApplyDefaults(s.fields["properties"].fields[k]))])
      else Rec(closed)
    else if Get(s, "type") == Str("array") && "items" in s.fields then
      Rec(s.fields["items" := ApplyDefaults(s.fields["items"])])
    else s
  }

  lemma DefaultsKeepOthers(s: Value, key: string)
    requires key != "additionalProperties" && key != "properties" && key != "items"
    ensures Get(ApplyDefaults(s), key) == Get(s, key)
  {
  }

  /** Writing the defaults out leaves every local rule of a node as it was. */
  lemma DefaultsKeepFacets(s: Value)
    ensures FacetsOf(ApplyDefaults(s)) == FacetsOf(s)
  {
    if s.Rec? {
      DefaultsKeepNodeOf(s);
      DefaultsKeepKeys(s);
      hide ApplyDefaults, FacetsFrom, NodeOf;
    }
  }

  lemma DefaultsKeepNodeOf(s: Value)
    requires s.Rec?
    ensures NodeOf(ApplyDefaults(s)) == NodeOf(s)
  {
    DefaultsKeepOthers(s, "type");
    DefaultsKeepOthers(s, "description");
    DefaultsKeepOthers(s, "minimum");
    DefaultsKeepOthers(s, "maximum");
    DefaultsKeepOthers(s, "minLength");
    DefaultsKeepOthers(s, "maxLength");
    DefaultsKeepOthers(s, "minItems");
    DefaultsKeepOthers(s, "maxItems");
    DefaultsKeepOthers(s, "format");
    DefaultsKeepOthers(s, "required");
    DefaultsKeepOthers(s, "enum");
    DefaultsKeepOthers(s, "examples");
    DefaultsKeepShape(s);
    KindOfObject(Get(s, "type"));
    hide ApplyDefaults, Get, KindOf, Declared;
  }

  lemma KindOfObject(v: Value)
    ensures KindOf(v) == Some(AnObject) <==> v == Str("object")
  {
  }

  lemma DefaultsKeepKeys(s: Value)
    requires s.Rec?
    ensures ApplyDefaults(s).Rec? && (ApplyDefaults(s).fields.Keys <= PROPERTY_KEYS <==> s.fields.Keys <= PROPERTY_KEYS)
  {
  }

  /** The rewritten keywords keep their kind, and an object stays closed unless it was opened. */
  lemma DefaultsKeepShape(s: Value)
    requires s.Rec?
    ensures var t := ApplyDefaults(s);
            && (Get(t, "items").Undefined? <==> Get(s, "items").Undefined?)
            && (Get(s, "type") != Str("object") ==> Get(t, "properties") == Get(s, "properties"))
            && (Get(s, "type") != Str("object") ==> Get(t, "additionalProperties") == Get(s, "additionalProperties"))
            && (Declared(t).Some? <==> Declared(s).Some?)
            && (Declared(s).Some? ==> Declared(t).value.Keys == Declared(s).value.Keys)
            && (Get(t, "additionalProperties") == Bool(true) <==> Get(s, "additionalProperties") == Bool(true))
            && (Get(t, "additionalProperties").Undefined? || Get(t, "additionalProperties").Bool? <==>
                Get(s, "additionalProperties").Undefined? || Get(s, "additionalProperties").Bool?)
  {
  }

  /** The child schemas are rewritten, and no child appears or disappears. */
  lemma DefaultsKeepChildren(s: Value, step: Step)
    ensures Child(ApplyDefaults(s), step) ==
            match Child(s, step) case None => None case Some(child) => Some(ApplyDefaults(child))
  {
    DefaultsKeepOthers(s, "type");
  }

  lemma {:induction false} DefaultsCommute(s: Value, path: seq<Step>)
    ensures SchemaAt(ApplyDefaults(s), path) ==
            match SchemaAt(s, path) case None => None case Some(t) => Some(ApplyDefaults(t))
    decreases |path|
  {
    hide ApplyDefaults, Child;
    if path != [] {
      DefaultsKeepChildren(s, path[0]);
      if Child(s, path[0]).Some? { DefaultsCommute(Child(s, path[0]).value, path[1..]); }
    }
  }

  lemma DefaultsKeepObject(s: Value, v: Value)
    ensures AdditionalAllows(ApplyDefaults(s), v) <==> AdditionalAllows(s, v)
  {
    DefaultsKeepOthers(s, "type");
    assert forall k :: Declares(ApplyDefaults(s), k) <==> Declares(s, k);
    assert Get(s, "type") == Str("object") ==>
      (Get(ApplyDefaults(s), "additionalProperties") == Bool(true) <==> Get(s, "additionalProperties") == Bool(true));
    hide ApplyDefaults, Declares, Get;
  }

  /** Writing the defaults out leaves every keyword's meaning as it was. */
  lemma DefaultsKeepKeywords(s: Value, v: Value, formats: Formats)
    ensures Allows(ApplyDefaults(s), v, formats) <==> Allows(s, v, formats)
  {
    DefaultsKeepOthers(s, "type");
    DefaultsKeepOthers(s, "enum");
    DefaultsKeepOthers(s, "minimum");
    DefaultsKeepOthers(s, "maximum");
    DefaultsKeepOthers(s, "minLength");
    DefaultsKeepOthers(s, "maxLength");
    DefaultsKeepOthers(s, "minItems");
    DefaultsKeepOthers(s, "maxItems");
    DefaultsKeepOthers(s, "format");
    DefaultsKeepOthers(s, "required");
    DefaultsKeepObject(s, v);
    hide ApplyDefaults, Get, AdditionalAllows;
  }

  lemma DefaultsKeepMeaning(s: Value, v: Value, formats: Formats)
    ensures Conforms(ApplyDefaults(s), v, formats) <==> Conforms(s, v, formats)
  {
    hide ApplyDefaults, Allows, SchemaAt, ValueAt;
    forall path
      ensures FineAt(ApplyDefaults(s), v, path, formats) <==> FineAt(s, v, path, formats)
    {
      DefaultsCommute(s, path);
      if SchemaAt(s, path).Some? && ValueAt(v, path).Some? {
        DefaultsKeepKeywords(SchemaAt(s, path).value, ValueAt(v, path).value, formats);
      }
    }
  }

  lemma DefaultsKeepNode(s: Value, formats: Formats)
    ensures LegalNode(ApplyDefaults(s), formats) <==> LegalNode(s, formats)
  {
    DefaultsKeepFacets(s);
    FacetsAreKeywords(s);
    FacetsAreKeywords(ApplyDefaults(s));
    if WellFormed(s) {
      assert s.Rec? && ApplyDefaults(s).Rec?;
      DefaultsKeepOthers(s, "examples");
      DefaultKept(s);
      hide ApplyDefaults, FacetsOf, Conforms, WellFormed;
      forall v
        ensures Conforms(ApplyDefaults(s), v, formats) <==> Conforms(s, v, formats)
      {
        DefaultsKeepMeaning(s, v, formats);
      }
    }
  }

  lemma DefaultKept(s: Value)
    requires s.Rec?
    ensures ApplyDefaults(s).Rec?
    ensures "default" in ApplyDefaults(s).fields <==> "default" in s.fields
    ensures "default" in s.fields ==> ApplyDefaults(s).fields["default"] == s.fields["default"]
  {
  }

  lemma DefaultsKeepLegality(s: Value, formats: Formats)
    ensures Legal(ApplyDefaults(s), formats) <==> Legal(s, formats)
  {
    hide ApplyDefaults, SchemaAt, LegalNode;
    forall path
      ensures SchemaAt(ApplyDefaults(s), path).Some? <==> SchemaAt(s, path).Some?
      ensures SchemaAt(s, path).Some? ==>
                (LegalNode(SchemaAt(ApplyDefaults(s), path).value, formats) <==> LegalNode(SchemaAt(s, path).value, formats))
    {
      DefaultsCommute(s, path);
      if SchemaAt(s, path).Some? { DefaultsKeepNode(SchemaAt(s, path).value, formats); }
    }
  }

  /** Writing out the defaults changes neither which schemas compile nor any verdict of the compiled validator. */
  lemma DefaultsPreserveMeaning(s: Value, formats: Formats)
    ensures Compile(ApplyDefaults(s), formats).Some? <==> Compile(s, formats).Some?
    ensures Compile(s, formats).Some? ==>
              forall v :: Compile(ApplyDefaults(s), formats).value(v) <==> Compile(s, formats).value(v)
  {
    hide ApplyDefaults, Compile, Legal, Conforms;
    CompilerIsExact(s, formats);
    CompilerIsExact(ApplyDefaults(s), formats);
    DefaultsKeepLegality(s, formats);
    if Compile(s, formats).Some? {
      forall v
        ensures Compile(ApplyDefaults(s), formats).value(v) <==> Compile(s, formats).value(v)
      {
        DefaultsKeepMeaning(s, v, formats);
      }
    }
  }

  /** The same for the schema of a tool. */
  lemma RootDefaultsPreserveMeaning(s: Value, formats: Formats)
    ensures CompileRoot(ApplyDefaults(s), formats).Some? <==> CompileRoot(s, formats).Some?
    ensures CompileRoot(s, formats).Some? ==>
              forall v :: CompileRoot(ApplyDefaults(s), formats).value(v) <==> CompileRoot(s, formats).value(v)
  {
    RootShapeKept(s);
    hide ApplyDefaults, Compile;
    DefaultsPreserveMeaning(s, formats);
  }

  lemma RootShapeKept(s: Value)
    ensures ApplyDefaults(s).Rec? <==> s.Rec?
    ensures s.Rec? ==> (ApplyDefaults(s).fields.Keys <= ROOT_KEYS <==> s.fields.Keys <= ROOT_KEYS) || Get(s, "type") != Str("object")
    ensures Get(ApplyDefaults(s), "type") == Get(s, "type")
    ensures Get(s, "type") == Str("object") ==> (Get(ApplyDefaults(s), "properties").Rec? <==> Get(s, "properties").Rec?)
  {
  }
}
