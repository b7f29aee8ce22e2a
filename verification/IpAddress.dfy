/** Address literals: their text forms, their values, and the prefix tests that decide what is public. */
module IpAddress {
  import opened Wrappers

  // ---------------------------------------------------------------- splitting and joining

  /** `String.prototype.split` on one character. */
  function Split(s: string, sep: char): (parts: seq<string>)
    ensures |parts| > 0
  {
    if s == "" then [""]
    else if s[0] == sep then [""] + Split(s[1..], sep)
    else
      var rest := Split(s[1..], sep);
      [[s[0]] + rest[0]] + rest[1..]
  }

  function Join(parts: seq<string>, sep: char): string {
    if parts == [] then ""
    else if |parts| == 1 then parts[0]
    else parts[0] + [sep] + Join(parts[1..], sep)
  }

  lemma {:induction false} JoinSplit(s: string, sep: char)
    ensures Join(Split(s, sep), sep) == s
  {
    if s != "" {
      JoinSplit(s[1..], sep);
      var rest := Split(s[1..], sep);
      if s[0] == sep {
        assert ([""] + rest)[1..] == rest;
        assert s == [sep] + s[1..];
      } else {
        var parts := [[s[0]] + rest[0]] + rest[1..];
        assert parts[1..] == rest[1..];
        assert s == [s[0]] + s[1..];
        if |rest| == 1 {
          assert Join(parts, sep) == [s[0]] + rest[0];
        } else {
          assert Join(parts, sep) == [s[0]] + (rest[0] + [sep] + Join(rest[1..], sep));
        }
      }
    }
  }

  lemma {:induction false} SplitPiece(s: string, sep: char)
    requires sep !in s
    ensures Split(s, sep) == [s]
  {
    if s != "" {
      SplitPiece(s[1..], sep);
      assert s == [s[0]] + s[1..];
    }
  }

  lemma SplitCons(c: char, s: string, sep: char)
    ensures Split([c] + s, sep) ==
            if c == sep then [""] + Split(s, sep) else [[c] + Split(s, sep)[0]] + Split(s, sep)[1..]
    ensures Split("", sep) == [""]
  {
    assert ([c] + s)[1..] == s;
  }

  /** Splitting a text with a separator in it splits the two sides. */
  lemma {:induction false} SplitConcat(a: string, b: string, sep: char)
    ensures Split(a + [sep] + b, sep) == Split(a, sep) + Split(b, sep)
  {
    hide Split;
    if a == "" {
      SplitCons(sep, b, sep);
      assert a + [sep] + b == [sep] + b;
    } else {
      var rest, more := Split(a[1..], sep), Split(b, sep);
      SplitConcat(a[1..], b, sep);
      SplitCons(a[0], a[1..], sep);
      SplitCons(a[0], a[1..] + [sep] + b, sep);
      assert a == [a[0]] + a[1..];
      assert a + [sep] + b == [a[0]] + (a[1..] + [sep] + b);
      assert (rest + more)[1..] == rest[1..] + more && (rest + more)[0] == rest[0];
    }
  }

  lemma {:induction false} SplitJoin(parts: seq<string>, sep: char)
    requires parts != [] && forall i :: 0 <= i < |parts| ==> sep !in parts[i]
    ensures Split(Join(parts, sep), sep) == parts
  {
    if |parts| == 1 {
      SplitPiece(parts[0], sep);
    } else {
      SplitPiece(parts[0], sep);
      SplitConcat(parts[0], Join(parts[1..], sep), sep);
      SplitJoin(parts[1..], sep);
      assert [parts[0]] + parts[1..] == parts;
    }
  }

  lemma {:induction false} JoinMore(parts: seq<string>, last: string, sep: char)
    ensures Join(parts + [last], sep) == if parts == [] then last else Join(parts, sep) + [sep] + last
  {
    if parts == [] {
      assert parts + [last] == [last];
    } else {
      assert (parts + [last])[1..] == parts[1..] + [last];
      JoinMore(parts[1..], last, sep);
      if |parts| > 1 {
        assert parts[0] + [sep] + (Join(parts[1..], sep) + [sep] + last) == parts[0] + [sep] + Join(parts[1..], sep) + [sep] + last;
      }
    }
  }

  // ---------------------------------------------------------------- dotted quads

  predicate Digit(c: char) { '0' <= c <= '9' }

  predicate Digits(s: string) { forall i :: 0 <= i < |s| ==> Digit(s[i]) }

  function DigitValue(c: char): nat
    requires Digit(c)
  {
    c as int - '0' as int
  }

  function Decimal(s: string): nat
    requires Digits(s)
  {
    if s == "" then 0 else Decimal(s[..|s| - 1]) * 10 + DigitValue(s[|s| - 1])
  }

  /** One to three digits, at most 255; leading zeros are read as decimal. */
  predicate Octet(s: string) {
    1 <= |s| <= 3 && Digits(s) && Decimal(s) <= 255
  }

  /** Four octets and the number they denote, most significant first. */
  predicate IsQuad(parts: seq<string>) {
    |parts| == 4 && forall i :: 0 <= i < 4 ==> Octet(parts[i])
  }

  function QuadValue(parts: seq<string>): (v: nat)
    requires IsQuad(parts)
    ensures v < 0x1_0000_0000
  {
    Decimal(parts[0]) * 0x100_0000 + Decimal(parts[1]) * 0x1_0000 + Decimal(parts[2]) * 0x100 + Decimal(parts[3])
  }

  function QuadOf(s: string): Option<nat> {
    if IsQuad(Split(s, '.')) then Some(QuadValue(Split(s, '.'))) else None
  }

  /** `ipv4Number` */
  method Ipv4Number(s: string) returns (r: Option<nat>)
    ensures r == QuadOf(s)
    ensures r.Some? ==> r.value < 0x1_0000_0000
  {
    var parts := Split(s, '.');
    if |parts| != 4 { return None; }
    var result: nat := 0;
    for i := 0 to |parts|
      invariant forall k :: 0 <= k < i ==> Octet(parts[k])
      invariant result == Folded(parts, i)
    {
      if !Octet(parts[i]) { return None; }
      result := result * 256 + Decimal(parts[i]);
    }
    FoldedIsQuadValue(parts);
    return Some(result);
  }

  /** The loop's partial result. */
  function Folded(parts: seq<string>, n: nat): nat
    requires n <= |parts| && forall k :: 0 <= k < n ==> Octet(parts[k])
  {
    if n == 0 then 0 else assert Octet(parts[n - 1]); Folded(parts, n - 1) * 256 + Decimal(parts[n - 1])
  }

  lemma FoldedIsQuadValue(parts: seq<string>)
    requires IsQuad(parts)
    ensures Folded(parts, 4) == QuadValue(parts)
  {
    assert Folded(parts, 1) == Decimal(parts[0]);
    assert Folded(parts, 2) == Folded(parts, 1) * 256 + Decimal(parts[1]);
    assert Folded(parts, 3) == Folded(parts, 2) * 256 + Decimal(parts[2]);
  }

  /** A text is a dotted quad with value `v` exactly when it is four octets joined by dots. */
  lemma QuadExact(s: string, v: nat)
    ensures QuadOf(s) == Some(v) <==> exists parts :: IsQuad(parts) && Join(parts, '.') == s && QuadValue(parts) == v
  {
    hide Octet, QuadValue, Join, Split;
    if QuadOf(s) == Some(v) { JoinSplit(s, '.'); }
    if parts :| IsQuad(parts) && Join(parts, '.') == s && QuadValue(parts) == v {
      forall i | 0 <= i < 4
        ensures '.' !in parts[i]
      {
        OctetHasNoDot(parts[i]);
      }
      SplitJoin(parts, '.');
    }
  }

  lemma OctetHasNoDot(s: string)
    requires Octet(s)
    ensures '.' !in s && ':' !in s && s != ""
  {
  }

  // ---------------------------------------------------------------- hexadecimal groups

  predicate HexDigit(c: char) { Digit(c) || 'a' <= c <= 'f' }

  function HexDigitValue(c: char): (v: nat)
    requires HexDigit(c)
    ensures v < 16
  {
    if Digit(c) then c as int - '0' as int else c as int - 'a' as int + 10
  }

  function HexValue(s: string): nat
    requires forall i :: 0 <= i < |s| ==> HexDigit(s[i])
  {
    if s == "" then 0 else HexValue(s[..|s| - 1]) * 16 + HexDigitValue(s[|s| - 1])
  }

  /** One to four lower-case hexadecimal digits. */
  predicate Group(s: string) {
    1 <= |s| <= 4 && forall i :: 0 <= i < |s| ==> HexDigit(s[i])
  }

  lemma HexStep(s: string, k: nat)
    requires 0 < k <= |s| && forall i :: 0 <= i < |s| ==> HexDigit(s[i])
    ensures HexValue(s[..k]) <= HexValue(s[..k - 1]) * 16 + 15
  {
    assert s[..k][..k - 1] == s[..k - 1];
  }

  lemma GroupFits(s: string)
    requires Group(s)
    ensures HexValue(s) < 0x1_0000
    ensures ':' !in s && '.' !in s && '%' !in s && s != ""
  {
    assert s[..|s|] == s;
    HexStep(s, 1);
    if |s| > 1 { HexStep(s, 2); }
    if |s| > 2 { HexStep(s, 3); }
    if |s| > 3 { HexStep(s, 4); }
  }

  predicate Groups(gs: seq<string>) { forall i :: 0 <= i < |gs| ==> Group(gs[i]) }

  /** The number written by groups of sixteen bits, most significant first. */
  function Fold(gs: seq<string>): nat
    requires Groups(gs)
  {
    if gs == [] then 0 else Fold(gs[..|gs| - 1]) * 0x1_0000 + HexValue(gs[|gs| - 1])
  }

  function Zeros(n: nat): (zs: seq<string>)
    ensures |zs| == n && Groups(zs)
  {
    seq(n, _ => "0")
  }

  // ---------------------------------------------------------------- text forms of section 2.2 of RFC 4291

  /** Eight groups, or two runs of groups around a `::` that stands for at least one group. */
  datatype Form = Form(left: seq<string>, right: Option<seq<string>>)

  predicate GoodForm(f: Form) {
    && Groups(f.left) && (f.right.Some? ==> Groups(f.right.value))
    && (if f.right.Some? then |f.left| + |f.right.value| <= 7 else |f.left| == 8)
  }

  function FormText(f: Form): string {
    match f.right
    case None => Join(f.left, ':')
    case Some(right) => Join(f.left, ':') + "::" + Join(right, ':')
  }

  function Expanded(f: Form): (gs: seq<string>)
    requires GoodForm(f)
    ensures |gs| == 8 && Groups(gs)
  {
    match f.right
    case None => f.left
    case Some(right) => f.left + Zeros(8 - |f.left| - |right|) + right
  }

  function FormValue(f: Form): nat
    requires GoodForm(f)
  {
    Fold(Expanded(f))
  }

  // ---------------------------------------------------------------- the parser on hexadecimal text

  /** The first position of `::`. */
  function FindDouble(s: string): (r: Option<nat>)
    ensures r.Some? ==> r.value + 2 <= |s| && s[r.value] == ':' && s[r.value + 1] == ':'
  {
    if |s| < 2 then None
    else if s[0] == ':' && s[1] == ':' then Some(0)
    else
      match FindDouble(s[1..])
      case None => None
      case Some(i) => Some(i + 1)
  }

  function SideOf(s: string): seq<string> { if s == "" then [] else Split(s, ':') }

  /** `ipv6Number` on text without a dotted quad. */
  function ParseHex(s: string): Option<nat> {
    match FindDouble(s)
    case None =>
      var f := Form(SideOf(s), None);
      if GoodForm(f) then Some(FormValue(f)) else None
    case Some(i) =>
      if FindDouble(s[i + 2..]).Some? then None
      else
        var f := Form(SideOf(s[..i]), Some(SideOf(s[i + 2..])));
        if GoodForm(f) then Some(FormValue(f)) else None
  }

  lemma {:induction false} JoinSide(s: string)
    ensures Join(SideOf(s), ':') == s
  {
    if s != "" { JoinSplit(s, ':'); }
  }

  lemma {:induction false} SideJoin(gs: seq<string>)
    requires Groups(gs)
    ensures SideOf(Join(gs, ':')) == gs
  {
    if gs != [] {
      forall i | 0 <= i < |gs|
        ensures ':' !in gs[i]
      {
        GroupFits(gs[i]);
      }
      SplitJoin(gs, ':');
      GroupFits(gs[0]);
      assert Join(gs, ':') != "";
    }
  }

  /** Joined groups contain no `::`, and do not end in a colon. */
  lemma {:induction false} JoinedHasNoDouble(gs: seq<string>)
    requires Groups(gs)
    ensures FindDouble(Join(gs, ':')).None?
    ensures gs != [] ==> Join(gs, ':') != "" && Join(gs, ':')[0] != ':' && Join(gs, ':')[|Join(gs, ':')| - 1] != ':'
  {
    if gs != [] {
      GroupFits(gs[0]);
      JoinedHasNoDouble(gs[1..]);
      if |gs| == 1 {
        PrefixHasNoDouble(gs[0], "");
        assert gs[0] + "" == gs[0];
      } else {
        var rest := Join(gs[1..], ':');
        PrefixHasNoDouble(gs[0], [':'] + rest);
        assert gs[0] + [':'] + rest == gs[0] + ([':'] + rest);
        assert ([':'] + rest)[1..] == rest;
      }
    }
  }

  /** Text without colons does not add a `::` in front of a text. */
  lemma {:induction false} PrefixHasNoDouble(a: string, b: string)
    requires ':' !in a
    ensures FindDouble(a + b) == match FindDouble(b) case None => None case Some(i) => Some(|a| + i)
  {
    if a == "" {
      assert a + b == b;
    } else {
      PrefixHasNoDouble(a[1..], b);
      assert (a + b)[1..] == a[1..] + b;
      assert a[0] in a;
      if |a + b| < 2 { assert b == ""; }
    }
  }

  /** The first `::` after a text that has none and does not end in a colon. */
  lemma {:induction false} DoubleAfter(a: string, b: string)
    requires FindDouble(a).None? && (a != "" ==> a[|a| - 1] != ':')
    ensures FindDouble(a + "::" + b) == Some(|a|)
  {
    if a == "" {
      assert a + "::" + b == "::" + b;
    } else {
      assert (a + "::" + b)[1..] == a[1..] + "::" + b;
      DoubleAfter(a[1..], b);
      if |a| > 1 { assert (a + "::" + b)[1] == a[1]; }
    }
  }

  /** A well-formed text is read as its value. */
  lemma ParseOfText(f: Form)
    requires GoodForm(f)
    ensures ParseHex(FormText(f)) == Some(FormValue(f))
  {
    hide Join, Split, FindDouble, FormValue, Group;
    JoinedHasNoDouble(f.left);
    SideJoin(f.left);
    if f.right.Some? {
      var a, b := Join(f.left, ':'), Join(f.right.value, ':');
      JoinedHasNoDouble(f.right.value);
      SideJoin(f.right.value);
      assert f.left == [] ==> a == "" by { EmptyJoin(); }
      DoubleAfter(a, b);
      assert (a + "::" + b)[..|a|] == a && (a + "::" + b)[|a| + 2..] == b;
    }
  }

  lemma EmptyJoin()
    ensures Join([], ':') == ""
  {
  }

  /** Whatever is accepted is a well-formed text, read as its value. */
  lemma TextOfParse(s: string)
    requires ParseHex(s).Some?
    ensures exists f :: GoodForm(f) && FormText(f) == s && Some(FormValue(f)) == ParseHex(s)
  {
    hide Join, Split, FormValue, Group;
    match FindDouble(s)
    case None =>
      JoinSide(s);
      assert FormText(Form(SideOf(s), None)) == s;
    case Some(i) =>
      var a, b := s[..i], s[i + 2..];
      JoinSide(a);
      JoinSide(b);
      assert s == a + "::" + b;
      assert FormText(Form(SideOf(a), Some(SideOf(b)))) == s;
  }

  // ---------------------------------------------------------------- embedded IPv4, case and scopes

  function HexChar(d: nat): char
    requires d < 16
  {
    if d < 10 then (d + '0' as int) as char else (d - 10 + 'a' as int) as char
  }

  /** `Number.prototype.toString(16)` */
  function ToHex(n: nat): string {
    if n < 16 then [HexChar(n)] else ToHex(n / 16) + [HexChar(n % 16)]
  }

  lemma {:induction false} ToHexReads(n: nat)
    ensures forall i :: 0 <= i < |ToHex(n)| ==> HexDigit(ToHex(n)[i])
    ensures HexValue(ToHex(n)) == n && ToHex(n) != ""
  {
    if n < 16 {
      assert [HexChar(n)][..0] == "";
    } else {
      ToHexReads(n / 16);
      assert ToHex(n)[..|ToHex(n)| - 1] == ToHex(n / 16);
    }
  }

  lemma ToHexIsGroup(n: nat)
    requires n < 0x1_0000
    ensures Group(ToHex(n)) && HexValue(ToHex(n)) == n
  {
    ToHexReads(n);
    assert |ToHex(n / 16 / 16 / 16)| == 1;
    assert |ToHex(n / 16 / 16)| <= 2;
    assert |ToHex(n / 16)| <= 3;
  }

  /** `toLowerCase` on the characters that matter here. */
  function Lower(s: string): string {
    seq(|s|, i requires 0 <= i < |s| => if 'A' <= s[i] <= 'Z' then (s[i] as int + 32) as char else s[i])
  }

  function LastColon(s: string): (r: Option<nat>)
    ensures r.Some? ==> r.value < |s| && s[r.value] == ':' && ':' !in s[r.value + 1..]
    ensures r.None? ==> ':' !in s
  {
    if s == "" then None
    else if s[|s| - 1] == ':' then Some(|s| - 1)
    else
      assert s == s[..|s| - 1] + [s[|s| - 1]];
      LastColon(s[..|s| - 1])
  }

  /** The text in which a trailing dotted quad is written as two hexadecimal groups. */
  function WithoutQuad(prefix: string, quad: nat): string
    requires quad < 0x1_0000_0000
  {
    prefix + ":" + ToHex(quad / 0x1_0000) + ":" + ToHex(quad % 0x1_0000)
  }

  /** `ipv6Number` */
  function Ipv6Number(input: string): Option<nat> {
    var s := Lower(input);
    if '%' in s then None
    else if '.' in s then
      match LastColon(s)
      case None => None
      case Some(i) =>
        match QuadOf(s[i + 1..])
        case None => None
        case Some(quad) => ParseHex(WithoutQuad(s[..i], quad))
    else ParseHex(s)
  }

  /** A form of hexadecimal groups, or one whose last thirty-two bits are a dotted quad. */
  datatype Address =
    | Plain(form: Form)
    | Embedded(left: seq<string>, right: Option<seq<string>>, quad: seq<string>)

  predicate GoodAddress(a: Address) {
    match a
    case Plain(f) => GoodForm(f)
    case Embedded(left, right, quad) => IsQuad(quad) && GoodForm(HexForm(left, right, QuadValue(quad)))
  }

  /** The same address with the quad written in hexadecimal. */
  function HexForm(left: seq<string>, right: Option<seq<string>>, quad: nat): Form
    requires quad < 0x1_0000_0000
  {
    var tail := [ToHex(quad / 0x1_0000), ToHex(quad % 0x1_0000)];
    match right
    case None => Form(left + tail, None)
    case Some(r) => Form(left, Some(r + tail))
  }

  function AddressText(a: Address): string {
    match a
    case Plain(f) => FormText(f)
    case Embedded(left, right, quad) =>
      var tail := [Join(quad, '.')];
      (match right
       case None => Join(left + tail, ':')
       case Some(r) => Join(left, ':') + "::" + Join(r + tail, ':'))
  }

  function AddressValue(a: Address): nat
    requires GoodAddress(a)
  {
    match a
    case Plain(f) => FormValue(f)
    case Embedded(left, right, quad) => FormValue(HexForm(left, right, QuadValue(quad)))
  }

  /** What comes before the last group of an embedded form, colon included. */
  function Lead(left: seq<string>, right: Option<seq<string>>): string {
    match right
    case None => if left == [] then "" else Join(left, ':') + ":"
    case Some(r) => Join(left, ':') + "::" + (if r == [] then "" else Join(r, ':') + ":")
  }

  /** Ending an embedded form with one group or another only changes what follows its lead. */
  lemma LeadThenTail(left: seq<string>, right: Option<seq<string>>, tail: string)
    ensures right.None? ==> Join(left + [tail], ':') == Lead(left, right) + tail
    ensures right.Some? ==> Join(left, ':') + "::" + Join(right.value + [tail], ':') == Lead(left, right) + tail
  {
    match right
    case None => JoinMore(left, tail, ':');
    case Some(r) =>
      JoinMore(r, tail, ':');
      if r != [] {
        assert Join(left, ':') + "::" + (Join(r, ':') + [':'] + tail) == Join(left, ':') + "::" + (Join(r, ':') + ":") + tail;
      }
  }

  lemma HexFormText(left: seq<string>, right: Option<seq<string>>, quad: nat)
    requires quad < 0x1_0000_0000
    ensures FormText(HexForm(left, right, quad)) ==
            Lead(left, right) + ToHex(quad / 0x1_0000) + ":" + ToHex(quad % 0x1_0000)
  {
    var hi, lo := ToHex(quad / 0x1_0000), ToHex(quad % 0x1_0000);
    hide Join, ToHex, Lead;
    match right
    case None =>
      assert left + [hi, lo] == left + [hi] + [lo];
      JoinMore(left + [hi], lo, ':');
      LeadThenTail(left, None, hi);
    case Some(r) =>
      assert r + [hi, lo] == r + [hi] + [lo];
      JoinMore(r + [hi], lo, ':');
      LeadThenTail(left, Some(r), hi);
      assert Join(left, ':') + "::" + (Join(r + [hi], ':') + [':'] + lo) == Join(left, ':') + "::" + Join(r + [hi], ':') + ":" + lo;
  }

  /** Joined groups consist of hexadecimal digits and colons. */
  lemma {:induction false} JoinedChars(gs: seq<string>)
    requires Groups(gs)
    ensures '.' !in Join(gs, ':') && '%' !in Join(gs, ':')
  {
    if gs != [] {
      GroupFits(gs[0]);
      JoinedChars(gs[1..]);
    }
  }

  lemma FormChars(f: Form)
    requires GoodForm(f)
    ensures '.' !in FormText(f) && '%' !in FormText(f)
  {
    JoinedChars(f.left);
    if f.right.Some? { JoinedChars(f.right.value); }
  }

  lemma QuadChars(quad: seq<string>)
    requires IsQuad(quad)
    ensures '.' in Join(quad, '.') && ':' !in Join(quad, '.') && '%' !in Join(quad, '.')
  {
    OctetHasNoDot(quad[0]);
    OctetHasNoDot(quad[1]);
    OctetHasNoDot(quad[2]);
    OctetHasNoDot(quad[3]);
    var a := Join(quad[3..], '.');
    assert a == quad[3];
    var b := Join(quad[2..], '.');
    assert quad[2..][1..] == quad[3..] && b == quad[2] + ['.'] + a;
    var c := Join(quad[1..], '.');
    assert quad[1..][1..] == quad[2..] && c == quad[1] + ['.'] + b;
    assert Join(quad, '.') == quad[0] + ['.'] + c;
    assert Join(quad, '.')[|quad[0]|] == '.';
  }

  /** The lead of an embedded form ends in a colon and has none of the other special characters. */
  lemma LeadEndsInColon(left: seq<string>, right: Option<seq<string>>)
    requires Groups(left) && (right.Some? ==> Groups(right.value)) && (right.None? ==> left != [])
    ensures var lead := Lead(left, right);
            lead != "" && lead[|lead| - 1] == ':' && '.' !in lead && '%' !in lead
  {
    JoinedChars(left);
    if right.Some? { JoinedChars(right.value); }
  }

  lemma {:induction false} LastColonAt(lead: string, tail: string)
    requires lead != "" && lead[|lead| - 1] == ':' && ':' !in tail
    ensures LastColon(lead + tail) == Some(|lead| - 1)
    decreases |tail|
  {
    if tail == "" {
      assert lead + tail == lead;
    } else {
      var most := tail[..|tail| - 1];
      assert tail == most + [tail[|tail| - 1]];
      assert tail[|tail| - 1] in tail;
      LastColonAt(lead, most);
      assert (lead + tail)[..|lead + tail| - 1] == lead + most;
    }
  }

  /** Every well-formed address is read as its value. */
  lemma AddressIsParsed(a: Address, input: string)
    requires GoodAddress(a) && AddressText(a) == Lower(input)
    ensures Ipv6Number(input) == Some(AddressValue(a))
  {
    hide Lower, Join, FormValue, QuadValue, ToHex, ParseHex;
    match a
    case Plain(f) =>
      FormChars(f);
      ParseOfText(f);
    case Embedded(left, right, quad) =>
      EmbeddedIsParsed(left, right, quad, input);
  }

  lemma EmbeddedIsParsed(left: seq<string>, right: Option<seq<string>>, quad: seq<string>, input: string)
    requires GoodAddress(Embedded(left, right, quad)) && AddressText(Embedded(left, right, quad)) == Lower(input)
    ensures Ipv6Number(input) == Some(FormValue(HexForm(left, right, QuadValue(quad))))
  {
    hide Lower, Join, FormValue, QuadValue, ToHex, ParseHex, Group, Lead;
    var s, lead, tail := Lower(input), Lead(left, right), Join(quad, '.');
    LeadThenTail(left, right, tail);
    assert s == lead + tail;
    EmbeddedGroups(left, right, QuadValue(quad));
    LeadEndsInColon(left, right);
    QuadChars(quad);
    LastColonAt(lead, tail);
    assert s[|lead|..] == tail && s[..|lead| - 1] + ":" == lead;
    QuadExact(tail, QuadValue(quad));
    HexFormText(left, right, QuadValue(quad));
    ParseOfText(HexForm(left, right, QuadValue(quad)));
  }

  lemma EmbeddedGroups(left: seq<string>, right: Option<seq<string>>, quad: nat)
    requires quad < 0x1_0000_0000 && GoodForm(HexForm(left, right, quad))
    ensures Groups(left) && (right.Some? ==> Groups(right.value)) && (right.None? ==> |left| == 6)
  {
    hide Group, ToHex;
    var f := HexForm(left, right, quad);
    if right.Some? {
      assert forall i :: 0 <= i < |right.value| ==> f.right.value[i] == right.value[i];
    } else {
      assert forall i :: 0 <= i < |left| ==> f.left[i] == left[i];
    }
  }

  // ---------------------------------------------------------------- and nothing else is accepted

  function SplitSide(gs: seq<string>): seq<string> { if gs == [] then [""] else gs }

  lemma SplitJoined(gs: seq<string>)
    requires Groups(gs)
    ensures Split(Join(gs, ':'), ':') == SplitSide(gs)
  {
    if gs != [] {
      forall i | 0 <= i < |gs|
        ensures ':' !in gs[i]
      {
        GroupFits(gs[i]);
      }
      SplitJoin(gs, ':');
    }
  }

  /** The pieces between the colons of a form's text. */
  lemma SplitForm(f: Form)
    requires GoodForm(f)
    ensures Split(FormText(f), ':') ==
            if f.right.None? then f.left else SplitSide(f.left) + [""] + SplitSide(f.right.value)
  {
    hide Join, Group;
    SplitJoined(f.left);
    if f.right.Some? {
      var a, b := Join(f.left, ':'), Join(f.right.value, ':');
      SplitJoined(f.right.value);
      assert a + "::" + b == a + [':'] + ("" + [':'] + b);
      SplitConcat(a, "" + [':'] + b, ':');
      SplitConcat("", b, ':');
      assert Split("", ':') == [""];
    }
  }

  /** A form whose text ends in two given groups ends in those groups. */
  lemma FormEndsInGroups(f: Form, prefix: string, quad: nat) returns (left: seq<string>, right: Option<seq<string>>)
    requires GoodForm(f) && quad < 0x1_0000_0000 && FormText(f) == WithoutQuad(prefix, quad)
    ensures f == HexForm(left, right, quad)
  {
    var hi, lo := ToHex(quad / 0x1_0000), ToHex(quad % 0x1_0000);
    ToHexIsGroup(quad / 0x1_0000);
    ToHexIsGroup(quad % 0x1_0000);
    GroupFits(hi);
    GroupFits(lo);
    SplitForm(f);
    hide ToHex, Group, Join, Split, FormText;
    SplitPiece(hi, ':');
    SplitPiece(lo, ':');
    SplitConcat(prefix, hi, ':');
    SplitConcat(prefix + [':'] + hi, lo, ':');
    var parts := Split(FormText(f), ':');
    assert parts == Split(prefix, ':') + [hi, lo];
    left, right := CutLastTwo(f, parts, hi, lo);
  }

  lemma CutLastTwo(f: Form, parts: seq<string>, hi: string, lo: string)
    returns (left: seq<string>, right: Option<seq<string>>)
    requires GoodForm(f) && hi != "" && lo != "" && |parts| >= 2
    requires parts == if f.right.None? then f.left else SplitSide(f.left) + [""] + SplitSide(f.right.value)
    requires parts[|parts| - 1] == lo && parts[|parts| - 2] == hi
    ensures match right case None => f == Form(left + [hi, lo], None) case Some(r) => f == Form(left, Some(r + [hi, lo]))
  {
    hide Group;
    if f.right.None? {
      left, right := f.left[..6], None;
      assert f.left == left + [hi, lo];
    } else {
      var r := f.right.value;
      assert |r| >= 2;
      left, right := f.left, Some(r[..|r| - 2]);
      assert r == r[..|r| - 2] + [hi, lo];
    }
  }

  lemma {:induction false} SameEnd(a: string, b: string, c: string)
    requires a + c == b + c
    ensures a == b
  {
    assert |a| == |b|;
    assert a == (a + c)[..|a|] && b == (b + c)[..|b|];
  }

  /** A text whose part after the last colon is a quad, and whose hexadecimal reading is accepted. */
  lemma QuadIsAddress(prefix: string, tail: string)
    requires IsQuad(Split(tail, '.')) && ParseHex(WithoutQuad(prefix, QuadValue(Split(tail, '.')))).Some?
    ensures exists a :: GoodAddress(a) && AddressText(a) == prefix + ":" + tail
              && Some(AddressValue(a)) == ParseHex(WithoutQuad(prefix, QuadValue(Split(tail, '.'))))
  {
    hide Join, Split, FormValue, QuadValue, ToHex, ParseHex, Group, FormText, Octet, Lead;
    var parts := Split(tail, '.');
    var quad := QuadValue(parts);
    TextOfParse(WithoutQuad(prefix, quad));
    var f :| GoodForm(f) && FormText(f) == WithoutQuad(prefix, quad) && Some(FormValue(f)) == ParseHex(WithoutQuad(prefix, quad));
    var left, right := FormEndsInGroups(f, prefix, quad);
    HexFormText(left, right, quad);
    var hi, lo := ToHex(quad / 0x1_0000), ToHex(quad % 0x1_0000);
    assert Lead(left, right) + (hi + ":" + lo) == Lead(left, right) + hi + ":" + lo;
    assert prefix + ":" + (hi + ":" + lo) == WithoutQuad(prefix, quad);
    SameEnd(Lead(left, right), prefix + ":", hi + ":" + lo);
    JoinSplit(tail, '.');
    LeadThenTail(left, right, tail);
    assert AddressText(Embedded(left, right, parts)) == prefix + ":" + tail;
    assert GoodAddress(Embedded(left, right, parts));
  }

  /** Whatever is accepted is a well-formed address, read as its value. */
  lemma ParsedIsAddress(input: string)
    requires Ipv6Number(input).Some?
    ensures exists a :: GoodAddress(a) && AddressText(a) == Lower(input) && Some(AddressValue(a)) == Ipv6Number(input)
  {
    hide Lower, Join, Split, FormValue, QuadValue, ToHex, ParseHex, Group, FormText, IsQuad, WithoutQuad;
    var s := Lower(input);
    if '.' in s {
      var i := LastColon(s).value;
      assert s == s[..i] + ":" + s[i + 1..];
      QuadIsAddress(s[..i], s[i + 1..]);
    } else {
      TextOfParse(s);
      var f :| GoodForm(f) && FormText(f) == s && Some(FormValue(f)) == ParseHex(s);
      assert AddressText(Plain(f)) == s;
    }
  }

  /**
   `ipv6Number` accepts exactly the text forms of section 2.2 of RFC 4291, in either case and with any placement
   of `::` and of an embedded dotted quad, and gives each its value.
   */
  lemma Ipv6Exact(input: string, v: nat)
    ensures Ipv6Number(input) == Some(v) <==>
              exists a :: GoodAddress(a) && AddressText(a) == Lower(input) && AddressValue(a) == v
  {
    hide Ipv6Number, AddressText, AddressValue, GoodAddress, Lower;
    if Ipv6Number(input) == Some(v) { ParsedIsAddress(input); }
    if a :| GoodAddress(a) && AddressText(a) == Lower(input) && AddressValue(a) == v { AddressIsParsed(a, input); }
  }

  // ---------------------------------------------------------------- prefix tests

  function Pow2(n: nat): (p: nat)
    ensures p > 0
  {
    if n == 0 then 1 else 2 * Pow2(n - 1)
  }

  /** `>>` on a non-negative number, bit by bit. */
  function Shift(v: nat, n: nat): nat {
    if n == 0 then v else Shift(v, n - 1) / 2
  }

  /** Bit `k` of a number of `width` bits, counted from the most significant. */
  function Bit(v: nat, width: nat, k: nat): nat
    requires k < width
  {
    Shift(v, width - 1 - k) % 2
  }

  /** `ipv6InCidr`: the numbers agree once the host bits are shifted out. */
  predicate InCidr(v: nat, base: nat, prefix: nat, width: nat)
    requires prefix <= width
  {
    Shift(v, width - prefix) == Shift(base, width - prefix)
  }

  lemma {:induction false} ShiftedOut(v: nat, n: nat)
    requires v < Pow2(n)
    ensures Shift(v, n) == 0
    decreases n
  {
    if n > 0 { ShiftBelow(v, n, n - 1); }
  }

  lemma {:induction false} ShiftBelow(v: nat, n: nat, k: nat)
    requires v < Pow2(n) && k <= n
    ensures Shift(v, k) < Pow2(n - k)
  {
    if k > 0 { ShiftBelow(v, n, k - 1); }
  }

  /** The shift test holds exactly when the first `prefix` bits agree. */
  lemma {:induction false} CidrComparesBits(v: nat, base: nat, prefix: nat, width: nat)
    requires prefix <= width && v < Pow2(width) && base < Pow2(width)
    ensures InCidr(v, base, prefix, width) <==> forall k :: 0 <= k < prefix ==> Bit(v, width, k) == Bit(base, width, k)
  {
    if prefix == 0 {
      ShiftedOut(v, width);
      ShiftedOut(base, width);
    } else {
      CidrComparesBits(v, base, prefix - 1, width);
      var x, y := Shift(v, width - prefix), Shift(base, width - prefix);
      assert Bit(v, width, prefix - 1) == x % 2 && Bit(base, width, prefix - 1) == y % 2;
      assert x == x / 2 * 2 + x % 2 && y == y / 2 * 2 + y % 2;
      hide Bit, Pow2;
      assert InCidr(v, base, prefix - 1, width) <==> x / 2 == y / 2;
      if forall k :: 0 <= k < prefix ==> Bit(v, width, k) == Bit(base, width, k) {
        assert Bit(v, width, prefix - 1) == Bit(base, width, prefix - 1);
      }
    }
  }

  /** A shorter prefix is a weaker test. */
  lemma ShorterPrefix(v: nat, base: nat, prefix: nat, shorter: nat, width: nat)
    requires shorter <= prefix <= width && v < Pow2(width) && base < Pow2(width)
    requires InCidr(v, base, prefix, width)
    ensures InCidr(v, base, shorter, width)
  {
    CidrComparesBits(v, base, prefix, width);
    CidrComparesBits(v, base, shorter, width);
    hide Bit, InCidr, Pow2;
  }

  // ---------------------------------------------------------------- what is public

  /** An address prefix in text form. */
  datatype Block = Block(form: Form, prefix: nat)

  const PUBLIC_SPACE := Block(Form(["2000"], Some([])), 3)

  const BLOCKED: seq<Block> := [
    Block(Form([], Some([])), 96),
    Block(Form([], Some(["ffff", "0", "0"])), 96),
    Block(Form(["64", "ff9b"], Some([])), 96),
    Block(Form(["64", "ff9b", "1"], Some([])), 48),
    Block(Form(["100"], Some([])), 64),
    Block(Form(["2001"], Some([])), 32),
    Block(Form(["2001", "2"], Some([])), 48),
    Block(Form(["2001", "10"], Some([])), 28),
    Block(Form(["2001", "20"], Some([])), 28),
    Block(Form(["2001", "db8"], Some([])), 32),
    Block(Form(["2002"], Some([])), 16),
    Block(Form(["3fff"], Some([])), 20),
    Block(Form(["5f00"], Some([])), 16),
    Block(Form(["fc00"], Some([])), 7),
    Block(Form(["fe80"], Some([])), 10),
    Block(Form(["fec0"], Some([])), 10),
    Block(Form(["ff00"], Some([])), 8)]

  predicate Covers(b: Block, v: nat) {
    GoodForm(b.form) && b.prefix <= 128 && InCidr(v, FormValue(b.form), b.prefix, 128)
  }

  /** `isPublicIpAddress` on an IPv6 number. */
  predicate IsPublicIpv6(v: nat) {
    Covers(PUBLIC_SPACE, v) && forall i :: 0 <= i < |BLOCKED| ==> !Covers(BLOCKED[i], v)
  }

  /** The blocked prefixes that lie inside the public space. */
  function Inner(): seq<Block> { BLOCKED[5..12] }

  lemma {:induction false} ShiftTwice(v: nat, a: nat, b: nat)
    ensures Shift(v, a + b) == Shift(Shift(v, a), b)
    decreases b
  {
    if b > 0 { ShiftTwice(v, a, b - 1); }
  }

  lemma Shift4(v: nat)
    ensures Shift(v, 4) == v / 16
  {
    assert Shift(v, 1) == v / 2;
    assert Shift(v, 2) == v / 4;
    assert Shift(v, 3) == v / 8;
  }

  /** Shifting a group out. */
  lemma Shift16(v: nat, g: nat)
    requires g < 0x1_0000
    ensures Shift(v * 0x1_0000 + g, 16) == v
  {
    var w := v * 0x1_0000 + g;
    ShiftTwice(w, 4, 4);
    ShiftTwice(w, 8, 4);
    ShiftTwice(w, 12, 4);
    Shift4(w);
    Shift4(Shift(w, 4));
    Shift4(Shift(w, 8));
    Shift4(Shift(w, 12));
    hide Shift;
    assert w / 16 / 16 == w / 256;
    assert w / 256 / 16 == w / 4096;
    assert w / 4096 / 16 == w / 65536;
  }

  lemma Pow16(n: nat)
    ensures Pow2(n + 16) == Pow2(n) * 0x1_0000
  {
    assert Pow2(n + 4) == Pow2(n) * 16 by { Pow4(n); }
    assert Pow2(n + 8) == Pow2(n + 4) * 16 by { Pow4(n + 4); }
    assert Pow2(n + 12) == Pow2(n + 8) * 16 by { Pow4(n + 8); }
    assert Pow2(n + 16) == Pow2(n + 12) * 16 by { Pow4(n + 12); }
  }

  lemma Pow4(n: nat)
    ensures Pow2(n + 4) == Pow2(n) * 16
  {
    assert Pow2(n + 2) == 2 * Pow2(n + 1);
    assert Pow2(n + 3) == 2 * Pow2(n + 2);
  }

  /** The first group is what is left when the others are shifted out, and the number fits its groups. */
  lemma {:induction false} FoldTop(gs: seq<string>)
    requires Groups(gs) && gs != []
    ensures Shift(Fold(gs), 16 * (|gs| - 1)) == HexValue(gs[0])
    ensures Fold(gs) < Pow2(16 * |gs|)
  {
    var n := |gs| - 1;
    GroupFits(gs[n]);
    Pow16(16 * n);
    if n == 0 {
      assert Fold(gs[..0]) == 0;
      assert Pow2(0) == 1;
    } else {
      FoldTop(gs[..n]);
      Shift16(Fold(gs[..n]), HexValue(gs[n]));
      ShiftTwice(Fold(gs), 16, 16 * (n - 1));
    }
  }

  /** The three leading bits of an address are those of its first group. */
  lemma TopBits(f: Form)
    requires GoodForm(f)
    ensures Shift(FormValue(f), 125) == HexValue(Expanded(f)[0]) / 8192
    ensures FormValue(f) < Pow2(128)
  {
    var gs := Expanded(f);
    FoldTop(gs);
    ShiftTwice(Fold(gs), 112, 13);
    Shift13(HexValue(gs[0]));
  }

  lemma Shift13(v: nat)
    ensures Shift(v, 13) == v / 8192
  {
    ShiftTwice(v, 4, 4);
    ShiftTwice(v, 8, 4);
    ShiftTwice(v, 12, 1);
    Shift4(v);
    Shift4(Shift(v, 4));
    Shift4(Shift(v, 8));
    assert Shift(Shift(v, 12), 1) == Shift(v, 12) / 2;
    hide Shift;
    assert v / 16 / 16 == v / 256;
    assert v / 256 / 16 == v / 4096;
  }

  /** A block whose first group starts with other bits than 001 has nothing in common with the public space. */
  lemma OutsideBlock(b: Block, v: nat)
    requires GoodForm(b.form) && 3 <= b.prefix <= 128 && HexValue(Expanded(b.form)[0]) / 8192 != 1
    requires v < Pow2(128) && Shift(v, 125) == 1
    ensures !Covers(b, v)
  {
    TopBits(b.form);
    if Covers(b, v) {
      ShorterPrefix(v, FormValue(b.form), b.prefix, 3, 128);
      assert false;
    }
  }

  lemma HexOf(a: char, b: char, c: char, d: char)
    requires HexDigit(a) && HexDigit(b) && HexDigit(c) && HexDigit(d)
    ensures Group([a, b, c, d])
    ensures HexValue([a, b, c, d]) ==
            HexDigitValue(a) * 4096 + HexDigitValue(b) * 256 + HexDigitValue(c) * 16 + HexDigitValue(d)
  {
    assert [a, b, c, d][..3] == [a, b, c] && [a, b, c][..2] == [a, b] && [a, b][..1] == [a] && [a][..0] == [];
    assert HexValue([a]) == HexDigitValue(a);
    assert HexValue([a, b]) == HexDigitValue(a) * 16 + HexDigitValue(b);
    assert HexValue([a, b, c]) == HexDigitValue(a) * 256 + HexDigitValue(b) * 16 + HexDigitValue(c);
  }

  lemma ShortGroup(s: string)
    requires Group(s) && |s| <= 3
    ensures HexValue(s) < 4096
  {
    assert s[..|s|] == s;
    HexStep(s, 1);
    if |s| > 1 { HexStep(s, 2); }
    if |s| > 2 { HexStep(s, 3); }
  }

  /** Leading bits of the block's first group. */
  function Lead3(b: Block): nat
    requires GoodForm(b.form)
  {
    HexValue(Expanded(b.form)[0]) / 8192
  }

  lemma LowBlocks()
    ensures forall i :: 0 <= i < 5 ==>
              GoodForm(BLOCKED[i].form) && 3 <= BLOCKED[i].prefix <= 128 && Lead3(BLOCKED[i]) != 1
  {
    assert Group("0") && Group("64") && Group("ff9b") && Group("1") && Group("100") && Group("ffff");
    ShortGroup("0");
    ShortGroup("64");
    ShortGroup("100");
    hide HexValue;
  }

  lemma HighBlocks()
    ensures forall i :: 12 <= i < 17 ==>
              GoodForm(BLOCKED[i].form) && 3 <= BLOCKED[i].prefix <= 128 && Lead3(BLOCKED[i]) != 1
  {
    HexOf('5', 'f', '0', '0');
    HexOf('f', 'c', '0', '0');
    HexOf('f', 'e', '8', '0');
    HexOf('f', 'e', 'c', '0');
    HexOf('f', 'f', '0', '0');
    hide HexValue;
  }

  lemma InnerBlocks()
    ensures GoodForm(PUBLIC_SPACE.form) && Lead3(PUBLIC_SPACE) == 1
    ensures forall i :: 5 <= i < 12 ==>
              GoodForm(BLOCKED[i].form) && 3 <= BLOCKED[i].prefix <= 128 && Lead3(BLOCKED[i]) == 1
  {
    assert Group("2") && Group("10") && Group("20") && Group("db8");
    HexOf('2', '0', '0', '0');
    HexOf('2', '0', '0', '1');
    HexOf('2', '0', '0', '2');
    HexOf('3', 'f', 'f', 'f');
  }

  lemma InPublicSpace(v: nat)
    ensures Covers(PUBLIC_SPACE, v) <==> Shift(v, 125) == 1
  {
    InnerBlocks();
    TopBits(PUBLIC_SPACE.form);
    hide FormValue, Shift;
  }

  lemma InnerIsBlocked(i: nat)
    requires i < 7
    ensures |BLOCKED| == 17 && |Inner()| == 7 && Inner()[i] == BLOCKED[i + 5]
    ensures GoodForm(Inner()[i].form) && Shift(FormValue(Inner()[i].form), 125) == 1
  {
    InnerBlocks();
    TopBits(BLOCKED[i + 5].form);
  }

  lemma OuterIsElsewhere(i: nat, v: nat)
    requires i < |BLOCKED| && !(5 <= i < 12) && v < Pow2(128) && Shift(v, 125) == 1
    ensures !Covers(BLOCKED[i], v)
  {
    assert |BLOCKED| == 17;
    if i < 5 { LowBlocks(); } else { HighBlocks(); }
    hide BLOCKED, Covers, Pow2, Shift;
    OutsideBlock(BLOCKED[i], v);
  }

  /** The public IPv6 addresses are exactly 2000::/3 without the seven blocked prefixes inside it. */
  lemma PublicIpv6Exact(v: nat)
    requires v < Pow2(128)
    ensures IsPublicIpv6(v) <==>
              Shift(v, 125) == 1 && forall i :: 0 <= i < |Inner()| ==> !Covers(Inner()[i], v)
    ensures |Inner()| == 7 && forall i :: 0 <= i < 7 ==>
              GoodForm(Inner()[i].form) && Shift(FormValue(Inner()[i].form), 125) == 1
  {
    InPublicSpace(v);
    forall i: nat | i < 7
      ensures |BLOCKED| == 17 && |Inner()| == 7 && Inner()[i] == BLOCKED[i + 5]
      ensures GoodForm(Inner()[i].form) && Shift(FormValue(Inner()[i].form), 125) == 1
    {
      InnerIsBlocked(i);
    }
    InnerIsBlocked(0);
    hide BLOCKED, Covers, GoodForm, FormValue, Pow2, Shift, Inner;
    if Shift(v, 125) == 1 {
      forall i: nat | i < 17 && !(5 <= i < 12)
        ensures !Covers(BLOCKED[i], v)
      {
        OuterIsElsewhere(i, v);
      }
      forall i: nat | i < 17
        ensures Covers(BLOCKED[i], v) ==> 5 <= i < 12 && Covers(Inner()[i - 5], v)
      {
        if 5 <= i < 12 { assert Inner()[i - 5] == BLOCKED[i - 5 + 5]; }
      }
    }
  }

  // ---------------------------------------------------------------- public IPv4 addresses

  /** `ipv4InCidr`: the quotients by the size of the block agree. */
  predicate InCidr4(v: nat, base: nat, prefix: nat)
    requires prefix <= 32
  {
    v / Pow2(32 - prefix) == base / Pow2(32 - prefix)
  }

  lemma TimesMonotone(a: nat, b: nat, m: nat)
    requires a <= b
    ensures a * m <= b * m
  {
  }

  /** `k` is the number of whole `m`s in `v`. */
  predicate Counts(v: nat, m: nat, k: nat) { k * m <= v < k * m + m }

  lemma OneCount(v: nat, m: nat, k: nat, q: nat)
    requires Counts(v, m, k) && Counts(v, m, q)
    ensures k == q
  {
    if k < q { TimesMonotone(k + 1, q, m); }
    if q < k { TimesMonotone(q + 1, k, m); }
  }

  lemma QuotientCounts(v: nat, m: nat)
    requires m > 0
    ensures Counts(v, m, v / m)
  {
  }

  lemma PairsCount(v: nat, p: nat, a: nat)
    requires Counts(v, p, a)
    ensures Counts(v, 2 * p, a / 2)
  {
    var k := a / 2;
    assert k * (2 * p) == 2 * k * p;
    assert a == 2 * k || a == 2 * k + 1;
    assert a * p == 2 * k * p || a * p == 2 * k * p + p;
  }

  lemma {:induction false} ShiftCounts(v: nat, n: nat)
    ensures Counts(v, Pow2(n), Shift(v, n))
  {
    if n > 0 {
      ShiftCounts(v, n - 1);
      PairsCount(v, Pow2(n - 1), Shift(v, n - 1));
    }
  }

  lemma QuotientIs(v: nat, m: nat, k: nat)
    requires m > 0 && Counts(v, m, k)
    ensures v / m == k
  {
    QuotientCounts(v, m);
    hide Counts;
    OneCount(v, m, k, v / m);
  }

  /** Shifting is division by a power of two. */
  lemma ShiftDivides(v: nat, n: nat)
    ensures Shift(v, n) == v / Pow2(n)
  {
    ShiftCounts(v, n);
    hide Counts, Shift;
    QuotientIs(v, Pow2(n), Shift(v, n));
  }

  /** The two block tests are one: the IPv4 test, too, holds exactly when the first `prefix` bits agree. */
  lemma Cidr4ComparesBits(v: nat, base: nat, prefix: nat)
    requires prefix <= 32 && v < Pow2(32) && base < Pow2(32)
    ensures InCidr4(v, base, prefix) <==> forall k :: 0 <= k < prefix ==> Bit(v, 32, k) == Bit(base, 32, k)
  {
    ShiftDivides(v, 32 - prefix);
    ShiftDivides(base, 32 - prefix);
    hide Bit, Shift, Pow2;
    CidrComparesBits(v, base, prefix, 32);
  }

  datatype Block4 = Block4(base: seq<string>, prefix: nat)

  const BLOCKED4: seq<Block4> := [
    Block4(["0", "0", "0", "0"], 8),
    Block4(["10", "0", "0", "0"], 8),
    Block4(["100", "64", "0", "0"], 10),
    Block4(["127", "0", "0", "0"], 8),
    Block4(["169", "254", "0", "0"], 16),
    Block4(["172", "16", "0", "0"], 12),
    Block4(["192", "0", "0", "0"], 24),
    Block4(["192", "0", "2", "0"], 24),
    Block4(["192", "88", "99", "0"], 24),
    Block4(["192", "168", "0", "0"], 16),
    Block4(["198", "18", "0", "0"], 15),
    Block4(["198", "51", "100", "0"], 24),
    Block4(["203", "0", "113", "0"], 24),
    Block4(["224", "0", "0", "0"], 4),
    Block4(["240", "0", "0", "0"], 4)]

  predicate Covers4(b: Block4, v: nat) {
    IsQuad(b.base) && b.prefix <= 32 && InCidr4(v, QuadValue(b.base), b.prefix)
  }

  /** `isPublicIpAddress` on an IPv4 number. */
  predicate IsPublicIpv4(v: nat) {
    forall i :: 0 <= i < |BLOCKED4| ==> !Covers4(BLOCKED4[i], v)
  }

  /** The same, read off the four octets. */
  predicate PublicOctets(a: nat, b: nat, c: nat) {
    && a != 0 && a != 10 && a != 127 && a < 224
    && !(a == 100 && 64 <= b < 128)
    && !(a == 169 && b == 254)
    && !(a == 172 && 16 <= b < 32)
    && !(a == 192 && (b == 168 || (b == 0 && (c == 0 || c == 2)) || (b == 88 && c == 99)))
    && !(a == 198 && (b == 18 || b == 19 || (b == 51 && c == 100)))
    && !(a == 203 && b == 0 && c == 113)
  }

  function Number4(a: nat, b: nat, c: nat, d: nat): nat { a * 0x100_0000 + b * 0x1_0000 + c * 0x100 + d }

  /** The block sizes the list uses, as powers of two. */
  lemma BlockSizes()
    ensures Pow2(8) == 0x100 && Pow2(16) == 0x1_0000 && Pow2(17) == 0x2_0000 && Pow2(20) == 0x10_0000
    ensures Pow2(22) == 0x40_0000 && Pow2(24) == 0x100_0000 && Pow2(28) == 0x1000_0000
  {
    assert Pow2(0) == 1;
    Pow4(0);
    Pow4(4);
    Pow4(8);
    Pow4(12);
    Pow4(16);
    Pow4(20);
    Pow4(24);
    assert Pow2(17) == 2 * Pow2(16);
    assert Pow2(21) == 2 * Pow2(20);
  }

  /** What is left of four octets in each block size. */
  lemma Quotients(a: nat, b: nat, c: nat, d: nat)
    requires a < 256 && b < 256 && c < 256 && d < 256
    ensures var v := Number4(a, b, c, d);
            && v / Pow2(8) == a * 0x1_0000 + b * 0x100 + c && v / Pow2(16) == a * 0x100 + b
            && v / Pow2(17) == a * 128 + b / 2 && v / Pow2(20) == a * 16 + b / 16 && v / Pow2(22) == a * 4 + b / 64
            && v / Pow2(24) == a && v / Pow2(28) == a / 16
  {
    BlockSizes();
    hide Pow2;
  }

  lemma Octet1(x: char)
    requires Digit(x)
    ensures Octet([x]) && Decimal([x]) == DigitValue(x)
  {
    assert [x][..0] == "" && Decimal("") == 0;
  }

  lemma Octet2(x: char, y: char)
    requires Digit(x) && Digit(y)
    ensures Octet([x, y]) && Decimal([x, y]) == DigitValue(x) * 10 + DigitValue(y)
  {
    assert [x, y][..1] == [x];
    Octet1(x);
  }

  lemma Octet3(x: char, y: char, z: char)
    requires Digit(x) && Digit(y) && Digit(z) && DigitValue(x) * 100 + DigitValue(y) * 10 + DigitValue(z) <= 255
    ensures Octet([x, y, z]) && Decimal([x, y, z]) == DigitValue(x) * 100 + DigitValue(y) * 10 + DigitValue(z)
  {
    assert [x, y, z][..2] == [x, y];
    Octet2(x, y);
  }

  /** The octets the list writes, read as decimals. */
  lemma ListedOctets()
    ensures Octet("0") && Decimal("0") == 0
    ensures Octet("2") && Decimal("2") == 2
    ensures Octet("10") && Decimal("10") == 10
    ensures Octet("16") && Decimal("16") == 16
    ensures Octet("18") && Decimal("18") == 18
    ensures Octet("51") && Decimal("51") == 51
    ensures Octet("64") && Decimal("64") == 64
    ensures Octet("88") && Decimal("88") == 88
    ensures Octet("99") && Decimal("99") == 99
  {
    hide Octet, Decimal;
    Octet1('0'); Octet1('2'); Octet2('1', '0'); Octet2('1', '6'); Octet2('1', '8'); Octet2('5', '1');
    Octet2('6', '4'); Octet2('8', '8'); Octet2('9', '9');
  }

  lemma ListedMiddleOctets()
    ensures Octet("100") && Decimal("100") == 100
    ensures Octet("113") && Decimal("113") == 113
    ensures Octet("127") && Decimal("127") == 127
    ensures Octet("168") && Decimal("168") == 168
    ensures Octet("169") && Decimal("169") == 169
    ensures Octet("172") && Decimal("172") == 172
  {
    hide Octet, Decimal;
    Octet3('1', '0', '0'); Octet3('1', '1', '3'); Octet3('1', '2', '7'); Octet3('1', '6', '8');
    Octet3('1', '6', '9'); Octet3('1', '7', '2');
  }

  lemma ListedHighOctets()
    ensures Octet("192") && Decimal("192") == 192
    ensures Octet("198") && Decimal("198") == 198
    ensures Octet("203") && Decimal("203") == 203
    ensures Octet("224") && Decimal("224") == 224
    ensures Octet("240") && Decimal("240") == 240
    ensures Octet("254") && Decimal("254") == 254
  {
    hide Octet, Decimal;
    Octet3('1', '9', '2'); Octet3('1', '9', '8'); Octet3('2', '0', '3'); Octet3('2', '2', '4');
    Octet3('2', '4', '0'); Octet3('2', '5', '4');
  }

  /** The leading bits of four octets, for the prefixes the list uses. */
  function Leading(prefix: nat, a: nat, b: nat, c: nat): nat {
    if prefix == 4 then a / 16 else if prefix == 8 then a else if prefix == 10 then a * 4 + b / 64
    else if prefix == 12 then a * 16 + b / 16 else if prefix == 15 then a * 128 + b / 2
    else if prefix == 16 then a * 0x100 + b else a * 0x1_0000 + b * 0x100 + c
  }

  lemma QuotientIsLeading(prefix: nat, a: nat, b: nat, c: nat, d: nat)
    requires prefix in {4, 8, 10, 12, 15, 16, 24} && a < 256 && b < 256 && c < 256 && d < 256
    ensures Number4(a, b, c, d) / Pow2(32 - prefix) == Leading(prefix, a, b, c)
  {
    Quotients(a, b, c, d);
    hide Pow2, Number4;
  }

  lemma CoversByOctets(base: seq<string>, prefix: nat, a: nat, b: nat, c: nat, d: nat)
    requires IsQuad(base) && prefix in {4, 8, 10, 12, 15, 16, 24}
    requires a < 256 && b < 256 && c < 256 && d < 256
    ensures Covers4(Block4(base, prefix), Number4(a, b, c, d)) <==>
              Leading(prefix, a, b, c) == Leading(prefix, Decimal(base[0]), Decimal(base[1]), Decimal(base[2]))
  {
    assert QuadValue(base) == Number4(Decimal(base[0]), Decimal(base[1]), Decimal(base[2]), Decimal(base[3]));
    assert forall i :: 0 <= i < 4 ==> Decimal(base[i]) < 256;
    hide Pow2, Decimal, QuadValue, Octet, Number4, Leading;
    QuotientIsLeading(prefix, a, b, c, d);
    QuotientIsLeading(prefix, Decimal(base[0]), Decimal(base[1]), Decimal(base[2]), Decimal(base[3]));
  }

  /** The octets block `i` of the list covers. */
  predicate BlockedBy(i: nat, a: nat, b: nat, c: nat) {
    match i
    case 0 => a == 0
    case 1 => a == 10
    case 2 => a == 100 && b / 64 == 1
    case 3 => a == 127
    case 4 => a == 169 && b == 254
    case 5 => a == 172 && b / 16 == 1
    case 6 => a == 192 && b == 0 && c == 0
    case 7 => a == 192 && b == 0 && c == 2
    case 8 => a == 192 && b == 88 && c == 99
    case 9 => a == 192 && b == 168
    case 10 => a == 198 && b / 2 == 9
    case 11 => a == 198 && b == 51 && c == 100
    case 12 => a == 203 && b == 0 && c == 113
    case 13 => a / 16 == 14
    case _ => a / 16 == 15
  }

  /** Each block of the list, in octets. */
  lemma BlocksInOctets(a: nat, b: nat, c: nat, d: nat, i: nat)
    requires a < 256 && b < 256 && c < 256 && d < 256 && i < 15
    ensures |BLOCKED4| == 15
    ensures Covers4(BLOCKED4[i], Number4(a, b, c, d)) <==>
              BlockedBy(i, a, b, c)
  {
    ListedOctets();
    ListedMiddleOctets();
    ListedHighOctets();
    hide Decimal, Octet, Covers4;
    CoversByOctets(BLOCKED4[i].base, BLOCKED4[i].prefix, a, b, c, d);
  }

  /** The public IPv4 addresses, read off the octets. */
  lemma PublicIpv4Exact(parts: seq<string>)
    requires IsQuad(parts)
    ensures IsPublicIpv4(QuadValue(parts)) <==> PublicOctets(Decimal(parts[0]), Decimal(parts[1]), Decimal(parts[2]))
  {
    var a, b, c, d := Decimal(parts[0]), Decimal(parts[1]), Decimal(parts[2]), Decimal(parts[3]);
    assert a < 256 && b < 256 && c < 256 && d < 256 && QuadValue(parts) == Number4(a, b, c, d);
    BlocksInOctets(a, b, c, d, 0);
    hide Decimal, Covers4, QuadValue, BLOCKED4;
    forall i: nat | i < 15
      ensures Covers4(BLOCKED4[i], Number4(a, b, c, d)) <==> BlockedBy(i, a, b, c)
    {
      BlocksInOctets(a, b, c, d, i);
    }
    OctetsOfTheList(a, b, c);
  }

  lemma OctetsOfTheList(a: nat, b: nat, c: nat)
    requires a < 256 && b < 256 && c < 256
    ensures PublicOctets(a, b, c) <==> forall i: nat :: i < 15 ==> !BlockedBy(i, a, b, c)
  {
    if forall i: nat :: i < 15 ==> !BlockedBy(i, a, b, c) {
      assert !BlockedBy(0, a, b, c) && !BlockedBy(1, a, b, c) && !BlockedBy(2, a, b, c) && !BlockedBy(3, a, b, c);
      assert !BlockedBy(4, a, b, c) && !BlockedBy(5, a, b, c) && !BlockedBy(6, a, b, c) && !BlockedBy(7, a, b, c);
      assert !BlockedBy(8, a, b, c) && !BlockedBy(9, a, b, c) && !BlockedBy(10, a, b, c) && !BlockedBy(11, a, b, c);
      assert !BlockedBy(12, a, b, c) && !BlockedBy(13, a, b, c) && !BlockedBy(14, a, b, c);
    }
  }
}
