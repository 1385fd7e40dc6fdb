/**
 * XML attribute handling of views: the string helpers, hexadecimal colours,
 * the five handler tables a view registers into, and the dispatch that picks
 * the handler for one `name="value"` pair.
 *
 * Handlers are closures in the library; here a handler is a label saying
 * which setter it runs, and dispatch returns the call it would make.
 */
module XmlAttributes {
  import opened Wrappers

  /** std::string sizes are size_t: every string is shorter than 2^64. */
  const SizeModulus: nat := 0x1_0000_0000_0000_0000

  /** size_t subtraction wraps around modulo 2^64. */
  function SizeSub(a: nat, b: nat): (r: nat)
    requires a < SizeModulus && b < SizeModulus
    ensures r < SizeModulus
    ensures b <= a ==> r == a - b
    ensures a < b ==> r == SizeModulus - (b - a)
  {
    (a - b) % SizeModulus
  }

  predicate OccursAt(hay: string, needle: string, i: nat)
  {
    i + |needle| <= |hay| && hay[i..i + |needle|] == needle
  }

  /** std::string::find(needle, pos): the first occurrence at or after `pos`, None for npos. */
  function Find(hay: string, needle: string, pos: nat): (r: Option<nat>)
    ensures r.Some? ==> pos <= r.value && OccursAt(hay, needle, r.value)
    ensures r.Some? ==> forall i :: pos <= i < r.value ==> !OccursAt(hay, needle, i)
    ensures r.None? <==> forall i :: pos <= i ==> !OccursAt(hay, needle, i)
    decreases |hay| - pos
  {
    if pos + |needle| > |hay| then None
    else if OccursAt(hay, needle, pos) then Some(pos)
    else Find(hay, needle, pos + 1)
  }

  /** std::string::rfind(needle, pos): the last occurrence starting at or before `pos`, None for npos. */
  function RFind(hay: string, needle: string, pos: nat): (r: Option<nat>)
    ensures r.Some? ==> r.value <= pos && OccursAt(hay, needle, r.value)
    ensures r.Some? ==> forall i :: r.value < i <= pos ==> !OccursAt(hay, needle, i)
    ensures r.None? <==> forall i :: 0 <= i <= pos ==> !OccursAt(hay, needle, i)
    decreases pos
  {
    if |needle| > |hay| then None
    else if pos > |hay| - |needle| then RFind(hay, needle, |hay| - |needle|)
    else if OccursAt(hay, needle, pos) then Some(pos)
    else if pos == 0 then None
    else RFind(hay, needle, pos - 1)
  }

  /**
   * endsWith: a search for the suffix starting at size() - suffix.size(),
   * computed in size_t. It is an exact suffix test; when the suffix is
   * longer than the data the start position wraps past the end and the
   * search finds nothing.
   */
  function EndsWith(data: string, suffix: string): (r: bool)
    requires |data| < SizeModulus && |suffix| < SizeModulus
    ensures r <==> |suffix| <= |data| && data[|data| - |suffix|..] == suffix
  {
    var pos := SizeSub(|data|, |suffix|);
    assert |suffix| <= |data| ==> (OccursAt(data, suffix, pos) <==> data[|data| - |suffix|..] == suffix);
    Find(data, suffix, pos).Some?
  }

  /** startsWith: the last occurrence at or before position 0 is at 0, an exact prefix test. */
  function StartsWith(data: string, prefix: string): (r: bool)
    ensures r <==> prefix <= data
  {
    assert OccursAt(data, prefix, 0) <==> prefix <= data;
    RFind(data, prefix, 0) == Some(0)
  }

  newtype byte = x: int | 0 <= x < 256

  /** A colour with 8-bit channels, as nvgRGB / nvgRGBA build it from bytes. */
  datatype Color = Color(r: byte, g: byte, b: byte, a: byte)

  /** nvgRGB: an opaque colour. */
  function Rgb(r: byte, g: byte, b: byte): Color
  {
    Color(r, g, b, 255)
  }

  /** The fully transparent colour, the default border colour. */
  const Transparent: Color := Color(0, 0, 0, 0)

  /**
   * One hexadecimal digit, either case: exactly the characters 0-9, a-f and
   * A-F are digits, and each is the upper- or lower-case spelling of its value.
   */
  function HexDigit(c: char): (r: Option<nat>)
    ensures r.Some? <==> '0' <= c <= '9' || 'a' <= c <= 'f' || 'A' <= c <= 'F'
    ensures r.Some? ==> r.value < 16 && (c == HexChar(r.value) || c == LowerHexChar(r.value))
  {
    if '0' <= c <= '9' then Some(c as nat - '0' as nat)
    else if 'a' <= c <= 'f' then Some(c as nat - 'a' as nat + 10)
    else if 'A' <= c <= 'F' then Some(c as nat - 'A' as nat + 10)
    else None
  }

  /** The two-digit hexadecimal byte at position i of s (a `%02hhx` conversion). */
  function HexByte(s: string, i: nat): (r: Option<byte>)
    requires i + 2 <= |s|
    ensures r.Some? <==> HexDigit(s[i]).Some? && HexDigit(s[i + 1]).Some?
    ensures r.Some? ==> r.value as nat == 16 * HexDigit(s[i]).value + HexDigit(s[i + 1]).value
  {
    match (HexDigit(s[i]), HexDigit(s[i + 1]))
    case (Some(hi), Some(lo)) => Some((hi * 16 + lo) as byte)
    case _ => None
  }

  /**
   * Parses "#RRGGBB" (opaque) or "#RRGGBBAA". The caller has already checked
   * the leading '#' and the length.
   */
  function ParseColor(value: string): Option<Color>
    requires |value| == 7 || |value| == 9
  {
    match (HexByte(value, 1), HexByte(value, 3), HexByte(value, 5))
    case (Some(r), Some(g), Some(b)) =>
      if |value| == 7 then Some(Rgb(r, g, b))
      else (match HexByte(value, 7)
            case Some(a) => Some(Color(r, g, b, a))
            case None => None)
    case _ => None
  }

  /**
   * A colour is read exactly when every character after the '#' is a
   * hexadecimal digit; each pair of digits is one component, and a colour
   * without an alpha pair is opaque.
   */
  lemma ParseColorReads(value: string)
    requires |value| == 7 || |value| == 9
    ensures var r := ParseColor(value);
      && (r.Some? <==> forall i :: 1 <= i < |value| ==> HexDigit(value[i]).Some?)
      && (r.Some? ==> r.value.r as nat == 16 * HexDigit(value[1]).value + HexDigit(value[2]).value)
      && (r.Some? ==> r.value.g as nat == 16 * HexDigit(value[3]).value + HexDigit(value[4]).value)
      && (r.Some? ==> r.value.b as nat == 16 * HexDigit(value[5]).value + HexDigit(value[6]).value)
      && (r.Some? && |value| == 9 ==> r.value.a as nat == 16 * HexDigit(value[7]).value + HexDigit(value[8]).value)
      && (r.Some? && |value| == 7 ==> r.value.a == 255)
  {
  }

  /** The upper-case hexadecimal digit of n. */
  function HexChar(n: nat): (c: char)
    requires n < 16
  {
    if n < 10 then ('0' as int + n) as char else ('A' as int + (n - 10)) as char
  }

  /** The lower-case hexadecimal digit of n. */
  function LowerHexChar(n: nat): (c: char)
    requires n < 16
  {
    if n < 10 then ('0' as int + n) as char else ('a' as int + (n - 10)) as char
  }

  /** Both spellings of a digit read back as its value. */
  lemma HexDigitOfHexChar(n: nat)
    requires n < 16
    ensures HexDigit(HexChar(n)) == Some(n)
    ensures HexDigit(LowerHexChar(n)) == Some(n)
  {
  }

  function HexPair(x: byte): (s: string)
    ensures |s| == 2
  {
    [HexChar(x as nat / 16), HexChar(x as nat % 16)]
  }

  /** "#RRGGBBAA", the long form a colour attribute accepts. */
  function FormatRgba(c: Color): (s: string)
    ensures |s| == 9 && s[0] == '#'
  {
    "#" + HexPair(c.r) + HexPair(c.g) + HexPair(c.b) + HexPair(c.a)
  }

  /** "#RRGGBB", the short form, which drops the alpha channel. */
  function FormatRgb(c: Color): (s: string)
    ensures |s| == 7 && s[0] == '#'
  {
    "#" + HexPair(c.r) + HexPair(c.g) + HexPair(c.b)
  }

  lemma HexPairRoundTrip(x: byte, s: string, i: nat)
    requires i + 2 <= |s| && s[i..i + 2] == HexPair(x)
    ensures HexByte(s, i) == Some(x)
  {
    var hi, lo := x as nat / 16, x as nat % 16;
    assert s[i] == HexChar(hi) && s[i + 1] == HexChar(lo);
    HexDigitOfHexChar(hi);
    HexDigitOfHexChar(lo);
    assert hi * 16 + lo == x as nat;
  }

  /** Every colour survives formatting as "#RRGGBBAA" and parsing back. */
  lemma ParseFormatRgba(c: Color)
    ensures ParseColor(FormatRgba(c)) == Some(c)
  {
    var s := FormatRgba(c);
    HexPairRoundTrip(c.r, s, 1);
    HexPairRoundTrip(c.g, s, 3);
    HexPairRoundTrip(c.b, s, 5);
    HexPairRoundTrip(c.a, s, 7);
  }

  /** "#RRGGBB" parses back to the same channels, made opaque. */
  lemma ParseFormatRgb(c: Color)
    ensures ParseColor(FormatRgb(c)) == Some(Rgb(c.r, c.g, c.b))
  {
    var s := FormatRgb(c);
    HexPairRoundTrip(c.r, s, 1);
    HexPairRoundTrip(c.g, s, 3);
    HexPairRoundTrip(c.b, s, 5);
  }

  /** The four sides of a box, for margins, borders and paddings. */
  datatype Edge = EdgeTop | EdgeRight | EdgeBottom | EdgeLeft

  /**
   * What a registered handler does. The first group are the handlers every
   * view registers, the second those a Box adds; Custom stands for handlers
   * widgets outside this model register.
   */
  datatype Handler =
    | WidthAuto | WidthPoints | WidthPercentage
    | HeightAuto | HeightPoints | HeightPercentage
    | Grow | Shrink
    | MarginPoints(edge: Edge) | MarginAuto(edge: Edge)
    | BorderColor | BorderThickness(edge: Edge)
    | VisibilityByName
    | AxisByName | DirectionByName | JustifyContentByName | Padding(edge: Edge)
    | Custom(id: string)

  /** The five handler tables. */
  datatype Kind = AutoKind | PercentageKind | FloatKind | StringKind | ColorKind

  /** A view's handler tables and the set of attribute names ever registered. */
  datatype Registry = Registry(
    autos: map<string, Handler>,
    percentages: map<string, Handler>,
    floats: map<string, Handler>,
    strings: map<string, Handler>,
    colors: map<string, Handler>,
    known: set<string>)

  const EmptyRegistry := Registry(map[], map[], map[], map[], map[], {})

  function Table(reg: Registry, kind: Kind): map<string, Handler>
  {
    match kind
    case AutoKind => reg.autos
    case PercentageKind => reg.percentages
    case FloatKind => reg.floats
    case StringKind => reg.strings
    case ColorKind => reg.colors
  }

  function Lookup(reg: Registry, kind: Kind, name: string): Option<Handler>
  {
    var t := Table(reg, kind);
    if name in t then Some(t[name]) else None
  }

  /** The registry with the table of one kind replaced. */
  function WithTable(reg: Registry, kind: Kind, t: map<string, Handler>): (r: Registry)
    ensures Table(r, kind) == t && r.known == reg.known
    ensures forall k :: k != kind ==> Table(r, k) == Table(reg, k)
  {
    match kind
    case AutoKind => reg.(autos := t)
    case PercentageKind => reg.(percentages := t)
    case FloatKind => reg.(floats := t)
    case StringKind => reg.(strings := t)
    case ColorKind => reg.(colors := t)
  }

  /** register*XMLAttribute: the handler goes into its kind's table and the name becomes known. */
  function Register(reg: Registry, kind: Kind, name: string, h: Handler): Registry
  {
    WithTable(reg, kind, Table(reg, kind)[name := h]).(known := reg.known + {name})
  }

  /**
   * A registration replaces any earlier handler of the same kind and name,
   * and the name becomes known. No other entry changes.
   */
  lemma RegisterUpdates(reg: Registry, kind: Kind, name: string, h: Handler)
    ensures var r := Register(reg, kind, name, h);
      && Lookup(r, kind, name) == Some(h)
      && (forall n :: n != name ==> Lookup(r, kind, n) == Lookup(reg, kind, n))
      && (forall k :: k != kind ==> Table(r, k) == Table(reg, k))
      && r.known == reg.known + {name}
  {
    var w := WithTable(reg, kind, Table(reg, kind)[name := h]);
    assert forall k :: Table(w.(known := reg.known + {name}), k) == Table(w, k);
  }

  /** Every name that has a handler of some kind is known. */
  ghost predicate KnownCoversTables(reg: Registry)
  {
    forall k, n :: n in Table(reg, k) ==> n in reg.known
  }

  lemma RegisterKeepsKnownCover(reg: Registry, kind: Kind, name: string, h: Handler)
    requires KnownCoversTables(reg)
    ensures KnownCoversTables(Register(reg, kind, name, h))
  {
    var r := Register(reg, kind, name, h);
    RegisterUpdates(reg, kind, name, h);
    forall k, n | n in Table(r, k) ensures n in r.known {
      if k == kind && n != name {
        assert Lookup(r, kind, n) == Lookup(reg, kind, n);
      }
    }
  }

  /** One register*XMLAttribute call. */
  datatype Registration = Registration(kind: Kind, name: string, handler: Handler)

  /** Registrations applied in order: the last one is applied last. */
  function RegisterAll(reg: Registry, regs: seq<Registration>): Registry
  {
    if |regs| == 0 then reg
    else
      var last := regs[|regs| - 1];
      Register(RegisterAll(reg, regs[..|regs| - 1]), last.kind, last.name, last.handler)
  }

  /** The handlers every view registers on construction, in the library's order. */
  function CommonRegistrations(): seq<Registration> {[
    Registration(AutoKind, "width", WidthAuto),
    Registration(FloatKind, "width", WidthPoints),
    Registration(PercentageKind, "width", WidthPercentage),
    Registration(AutoKind, "height", HeightAuto),
    Registration(FloatKind, "height", HeightPoints),
    Registration(PercentageKind, "height", HeightPercentage),
    Registration(FloatKind, "grow", Grow),
    Registration(FloatKind, "shrink", Shrink),
    Registration(FloatKind, "marginTop", MarginPoints(EdgeTop)),
    Registration(AutoKind, "marginTop", MarginAuto(EdgeTop)),
    Registration(FloatKind, "marginRight", MarginPoints(EdgeRight)),
    Registration(AutoKind, "marginRight", MarginAuto(EdgeRight)),
    Registration(FloatKind, "marginBottom", MarginPoints(EdgeBottom)),
    Registration(AutoKind, "marginBottom", MarginAuto(EdgeBottom)),
    Registration(FloatKind, "marginLeft", MarginPoints(EdgeLeft)),
    Registration(AutoKind, "marginLeft", MarginAuto(EdgeLeft)),
    Registration(ColorKind, "borderColor", BorderColor),
    Registration(FloatKind, "borderTop", BorderThickness(EdgeTop)),
    Registration(FloatKind, "borderRight", BorderThickness(EdgeRight)),
    Registration(FloatKind, "borderBottom", BorderThickness(EdgeBottom)),
    Registration(FloatKind, "borderLeft", BorderThickness(EdgeLeft)),
    Registration(StringKind, "visibility", VisibilityByName)
  ]}

  /** The handlers a Box adds to the common ones. */
  function BoxRegistrations(): seq<Registration> {[
    Registration(StringKind, "axis", AxisByName),
    Registration(StringKind, "direction", DirectionByName),
    Registration(StringKind, "justifyContent", JustifyContentByName),
    Registration(FloatKind, "paddingTop", Padding(EdgeTop)),
    Registration(FloatKind, "paddingRight", Padding(EdgeRight)),
    Registration(FloatKind, "paddingBottom", Padding(EdgeBottom)),
    Registration(FloatKind, "paddingLeft", Padding(EdgeLeft))
  ]}

  /** A call of one handler with its converted argument. */
  datatype Invocation =
    | CallAuto(handler: Handler)
    | CallFloat(handler: Handler, number: real)
    | CallPercentage(handler: Handler, number: real)
    | CallString(handler: Handler, text: string)
    | CallColor(handler: Handler, color: Color)

  function KindOf(call: Invocation): Kind
  {
    match call
    case CallAuto(_) => AutoKind
    case CallFloat(_, _) => FloatKind
    case CallPercentage(_, _) => PercentageKind
    case CallString(_, _) => StringKind
    case CallColor(_, _) => ColorKind
  }

  /**
   * What applyXMLAttribute does with one pair: a handler call (it returns
   * true), a refusal (it returns false), or an exception it does not catch.
   */
  datatype Outcome = Handled(call: Invocation) | Refused | Raised(reason: string)

  /** std::stof: a number, no conversion (invalid_argument), or out of range (out_of_range). */
  datatype FloatParse = Parsed(number: real) | NoConversion | OutOfRange

  /** The application resources dispatch reads: the number parser, style metrics and theme colours. */
  datatype Resources = Resources(stof: string -> FloatParse, style: map<string, real>, theme: map<string, Color>)

  const OutOfRangeReason := "std::out_of_range from std::stof"
  const MissingStyleReason := "unknown style metric"
  const MissingThemeReason := "unknown theme color"

  /** The float handler of `name` called with `number`, or a refusal when there is none. */
  function CallFloatHandler(reg: Registry, name: string, number: real): (r: Outcome)
    ensures r.Handled? ==> Lookup(reg, KindOf(r.call), name) == Some(r.call.handler) && r.call == CallFloat(r.call.handler, number)
    ensures r.Refused? <==> name !in reg.floats
  {
    if name in reg.floats then Handled(CallFloat(reg.floats[name], number)) else Refused
  }

  /** The colour handler of `name` called with `color`, or a refusal when there is none. */
  function CallColorHandler(reg: Registry, name: string, color: Color): (r: Outcome)
    ensures r.Handled? ==> Lookup(reg, KindOf(r.call), name) == Some(r.call.handler) && r.call == CallColor(r.call.handler, color)
    ensures r.Refused? <==> name !in reg.colors
  {
    if name in reg.colors then Handled(CallColor(reg.colors[name], color)) else Refused
  }

  /**
   * applyXMLAttribute. In order: a string handler takes any value; "auto"
   * goes to the auto handler; "<n>px" to the float handler; "<n>%" with n in
   * [0, 100] to the percentage handler (with n itself, not n / 100);
   * "@style/<key>" to the float handler with the style metric; "#RRGGBB" or
   * "#RRGGBBAA" to the colour handler; "@theme/<key>" to the colour handler
   * with the theme colour; anything else is parsed as a plain number for the
   * float handler. A call is only ever made to a handler registered under
   * `name` in the table matching the call's kind.
   */
  function ApplyXMLAttribute(reg: Registry, res: Resources, name: string, value: string): (r: Outcome)
    requires |value| < SizeModulus
    ensures r.Handled? ==> Lookup(reg, KindOf(r.call), name) == Some(r.call.handler)
  {
    if name in reg.strings then Handled(CallString(reg.strings[name], value))
    else if value == "auto" then
      (if name in reg.autos then Handled(CallAuto(reg.autos[name])) else Refused)
    else if EndsWith(value, "px") then
      (match res.stof(value[..|value| - 2])
       case Parsed(f) => CallFloatHandler(reg, name, f)
       case NoConversion => Refused
       case OutOfRange => Raised(OutOfRangeReason))
    else if EndsWith(value, "%") then
      (match res.stof(value[..|value| - 1])
       case Parsed(f) =>
         if f < 0.0 || f > 100.0 then Refused
         else if name in reg.percentages then Handled(CallPercentage(reg.percentages[name], f))
         else Refused
       case NoConversion => Refused
       case OutOfRange => Raised(OutOfRangeReason))
    else if StartsWith(value, "@style/") then
      var key := value[7..];
      if key !in res.style then Raised(MissingStyleReason)
      else CallFloatHandler(reg, name, res.style[key])
    else if StartsWith(value, "#") then
      (if |value| == 7 || |value| == 9 then
         match ParseColor(value)
         case Some(c) => CallColorHandler(reg, name, c)
         case None => Refused
       else Refused)
    else if StartsWith(value, "@theme/") then
      var key := value[7..];
      if key !in res.theme then Raised(MissingThemeReason)
      else CallColorHandler(reg, name, res.theme[key])
    else
      match res.stof(value)
      case Parsed(f) => CallFloatHandler(reg, name, f)
      case NoConversion => Refused
      case OutOfRange => Raised(OutOfRangeReason)
  }

  /**
   * What a value looks like to applyXMLAttribute once no string handler
   * claims the name, in the order the checks are made.
   */
  datatype Shape = AutoValue | PixelValue | PercentValue | StyleValue | HexValue | ThemeValue | PlainNumber

  function ShapeOf(value: string): Shape
  {
    if value == "auto" then AutoValue
    else if |value| >= 2 && value[|value| - 2..] == "px" then PixelValue
    else if |value| >= 1 && value[|value| - 1..] == "%" then PercentValue
    else if "@style/" <= value then StyleValue
    else if "#" <= value then HexValue
    else if "@theme/" <= value then ThemeValue
    else PlainNumber
  }

  /** The kind of handler a value of each shape is meant for. */
  function ShapeKind(shape: Shape): Kind
  {
    match shape
    case AutoValue => AutoKind
    case PixelValue => FloatKind
    case PercentValue => PercentageKind
    case StyleValue => FloatKind
    case HexValue => ColorKind
    case ThemeValue => ColorKind
    case PlainNumber => FloatKind
  }

  /** The exceptions applyXMLAttribute lets through: std::stof out of range, or a missing style metric or theme colour. */
  predicate Raises(res: Resources, value: string)
  {
    match ShapeOf(value)
    case PixelValue => res.stof(value[..|value| - 2]).OutOfRange?
    case PercentValue => res.stof(value[..|value| - 1]).OutOfRange?
    case StyleValue => value[7..] !in res.style
    case ThemeValue => value[7..] !in res.theme
    case PlainNumber => res.stof(value).OutOfRange?
    case _ => false
  }

  /** ShapeOf agrees with the endsWith / startsWith checks applyXMLAttribute makes, in its order. */
  lemma ShapeOfChecks(value: string)
    requires |value| < SizeModulus
    ensures ShapeOf(value) ==
      if value == "auto" then AutoValue
      else if EndsWith(value, "px") then PixelValue
      else if EndsWith(value, "%") then PercentValue
      else if StartsWith(value, "@style/") then StyleValue
      else if StartsWith(value, "#") then HexValue
      else if StartsWith(value, "@theme/") then ThemeValue
      else PlainNumber
  {
    var px, pc := EndsWith(value, "px"), EndsWith(value, "%");
    var st, hx, th := StartsWith(value, "@style/"), StartsWith(value, "#"), StartsWith(value, "@theme/");
    assert px == (|value| >= 2 && value[|value| - 2..] == "px");
    assert pc == (|value| >= 1 && value[|value| - 1..] == "%");
    assert st == ("@style/" <= value) && hx == ("#" <= value) && th == ("@theme/" <= value);
  }

  /** Only a handler of the given kind is called, and none when that kind has no handler for the name. */
  predicate OnlyKindCalled(reg: Registry, name: string, kind: Kind, r: Outcome)
  {
    && (r.Handled? ==> KindOf(r.call) == kind)
    && (Lookup(reg, kind, name).None? ==> !r.Handled?)
  }

  /**
   * Without a string handler, only a handler of the kind the value's shape
   * calls for is ever called, and when there is none the attribute is not
   * handled.
   */
  lemma ShapeDecidesHandler(reg: Registry, res: Resources, name: string, value: string)
    requires |value| < SizeModulus && name !in reg.strings
    ensures var r := ApplyXMLAttribute(reg, res, name, value);
      && (r.Handled? ==> KindOf(r.call) == ShapeKind(ShapeOf(value)))
      && (Lookup(reg, ShapeKind(ShapeOf(value)), name).None? ==> !r.Handled?)
  {
    match ShapeOf(value)
    case AutoValue => AutoValueGoesToAutoHandler(reg, res, name);
    case PixelValue => PixelBranch(reg, res, name, value);
    case PercentValue => PercentBranch(reg, res, name, value);
    case StyleValue => ReferenceBranch(reg, res, name, value);
    case HexValue => HexBranch(reg, res, name, value);
    case ThemeValue => ReferenceBranch(reg, res, name, value);
    case PlainNumber => PlainNumberBranch(reg, res, name, value);
  }

  /**
   * Without a string handler, exactly the out-of-range numbers and the
   * missing style metrics and theme colours raise.
   */
  lemma RaisesExactly(reg: Registry, res: Resources, name: string, value: string)
    requires |value| < SizeModulus && name !in reg.strings
    ensures ApplyXMLAttribute(reg, res, name, value).Raised? <==> Raises(res, value)
  {
    match ShapeOf(value)
    case AutoValue => AutoValueGoesToAutoHandler(reg, res, name);
    case PixelValue => PixelBranch(reg, res, name, value);
    case PercentValue => PercentBranch(reg, res, name, value);
    case StyleValue => ReferenceBranch(reg, res, name, value);
    case HexValue => HexBranch(reg, res, name, value);
    case ThemeValue => ReferenceBranch(reg, res, name, value);
    case PlainNumber => PlainNumberBranch(reg, res, name, value);
  }

  /** A "<n>px" value raises exactly when std::stof finds n out of range, and is refused when n is no number. */
  lemma PixelBranch(reg: Registry, res: Resources, name: string, value: string)
    requires |value| < SizeModulus && name !in reg.strings && ShapeOf(value) == PixelValue
    ensures ApplyXMLAttribute(reg, res, name, value).Raised? <==> res.stof(value[..|value| - 2]).OutOfRange?
    ensures res.stof(value[..|value| - 2]).NoConversion? ==> ApplyXMLAttribute(reg, res, name, value) == Refused
    ensures OnlyKindCalled(reg, name, FloatKind, ApplyXMLAttribute(reg, res, name, value))
  {
    ShapeOfChecks(value);
  }

  /** A "<n>%" value raises exactly when std::stof finds n out of range, and is refused when n is no number. */
  lemma PercentBranch(reg: Registry, res: Resources, name: string, value: string)
    requires |value| < SizeModulus && name !in reg.strings && ShapeOf(value) == PercentValue
    ensures ApplyXMLAttribute(reg, res, name, value).Raised? <==> res.stof(value[..|value| - 1]).OutOfRange?
    ensures res.stof(value[..|value| - 1]).NoConversion? ==> ApplyXMLAttribute(reg, res, name, value) == Refused
    ensures OnlyKindCalled(reg, name, PercentageKind, ApplyXMLAttribute(reg, res, name, value))
  {
    ShapeOfChecks(value);
  }

  /** A plain value raises exactly when std::stof finds its number out of range, and is refused when it is no number. */
  lemma PlainNumberBranch(reg: Registry, res: Resources, name: string, value: string)
    requires |value| < SizeModulus && name !in reg.strings && ShapeOf(value) == PlainNumber
    ensures ApplyXMLAttribute(reg, res, name, value).Raised? <==> res.stof(value).OutOfRange?
    ensures res.stof(value).NoConversion? ==> ApplyXMLAttribute(reg, res, name, value) == Refused
    ensures OnlyKindCalled(reg, name, FloatKind, ApplyXMLAttribute(reg, res, name, value))
  {
    ShapeOfChecks(value);
    assert !EndsWith(value, "px") && !EndsWith(value, "%");
    assert !StartsWith(value, "@style/") && !StartsWith(value, "#") && !StartsWith(value, "@theme/");
  }

  /** A style or theme reference raises exactly when its key is missing, and goes to a float or colour handler respectively. */
  lemma ReferenceBranch(reg: Registry, res: Resources, name: string, value: string)
    requires |value| < SizeModulus && name !in reg.strings
    requires ShapeOf(value) in {StyleValue, ThemeValue}
    ensures ApplyXMLAttribute(reg, res, name, value).Raised? <==>
      if ShapeOf(value) == StyleValue then value[7..] !in res.style else value[7..] !in res.theme
    ensures OnlyKindCalled(reg, name, ShapeKind(ShapeOf(value)), ApplyXMLAttribute(reg, res, name, value))
  {
    ShapeOfChecks(value);
  }

  /** A "#" value never raises (a malformed colour is refused instead) and only reaches a colour handler. */
  lemma HexBranch(reg: Registry, res: Resources, name: string, value: string)
    requires |value| < SizeModulus && name !in reg.strings && ShapeOf(value) == HexValue
    ensures !ApplyXMLAttribute(reg, res, name, value).Raised?
    ensures OnlyKindCalled(reg, name, ColorKind, ApplyXMLAttribute(reg, res, name, value))
  {
    ShapeOfChecks(value);
    assert !EndsWith(value, "px") && !EndsWith(value, "%");
    assert !StartsWith(value, "@style/") && StartsWith(value, "#");
  }

  /** A "<n>px" value goes to the float handler with the number std::stof reads from <n>. */
  lemma PixelValueGoesToFloatHandler(reg: Registry, res: Resources, name: string, value: string, f: real)
    requires |value| < SizeModulus && name !in reg.strings && ShapeOf(value) == PixelValue
    requires res.stof(value[..|value| - 2]) == Parsed(f)
    ensures ApplyXMLAttribute(reg, res, name, value) ==
      if name in reg.floats then Handled(CallFloat(reg.floats[name], f)) else Refused
  {
  }

  /** An "@style/<key>" value goes to the float handler with the style's metric for <key>. */
  lemma StyleValueGoesToFloatHandler(reg: Registry, res: Resources, name: string, value: string)
    requires |value| < SizeModulus && name !in reg.strings && ShapeOf(value) == StyleValue
    requires value[7..] in res.style
    ensures ApplyXMLAttribute(reg, res, name, value) ==
      if name in reg.floats then Handled(CallFloat(reg.floats[name], res.style[value[7..]])) else Refused
  {
    ShapeOfChecks(value);
  }

  /** An "@theme/<key>" value goes to the colour handler with the theme's colour for <key>. */
  lemma ThemeValueGoesToColorHandler(reg: Registry, res: Resources, name: string, value: string)
    requires |value| < SizeModulus && name !in reg.strings && ShapeOf(value) == ThemeValue
    requires value[7..] in res.theme
    ensures ApplyXMLAttribute(reg, res, name, value) ==
      if name in reg.colors then Handled(CallColor(reg.colors[name], res.theme[value[7..]])) else Refused
  {
    ShapeOfChecks(value);
  }

  /** Any other value is read whole by std::stof and goes to the float handler. */
  lemma PlainNumberGoesToFloatHandler(reg: Registry, res: Resources, name: string, value: string, f: real)
    requires |value| < SizeModulus && name !in reg.strings && ShapeOf(value) == PlainNumber
    requires res.stof(value) == Parsed(f)
    ensures ApplyXMLAttribute(reg, res, name, value) ==
      if name in reg.floats then Handled(CallFloat(reg.floats[name], f)) else Refused
  {
    ShapeOfChecks(value);
  }

  /** A number std::stof cannot read makes the "px", "%" and plain branches refuse. */
  lemma UnreadableNumberRefused(reg: Registry, res: Resources, name: string, value: string)
    requires |value| < SizeModulus && name !in reg.strings
    requires ShapeOf(value) == PixelValue ==> res.stof(value[..|value| - 2]).NoConversion?
    requires ShapeOf(value) == PercentValue ==> res.stof(value[..|value| - 1]).NoConversion?
    requires ShapeOf(value) == PlainNumber ==> res.stof(value).NoConversion?
    requires ShapeOf(value) in {PixelValue, PercentValue, PlainNumber}
    ensures ApplyXMLAttribute(reg, res, name, value) == Refused
  {
    match ShapeOf(value)
    case PixelValue => PixelBranch(reg, res, name, value);
    case PercentValue => PercentBranch(reg, res, name, value);
    case PlainNumber => PlainNumberBranch(reg, res, name, value);
  }

  /** A string handler takes every value of its attribute, whatever other handlers exist. */
  lemma StringHandlerWins(reg: Registry, res: Resources, name: string, value: string)
    requires |value| < SizeModulus && name in reg.strings
    ensures ApplyXMLAttribute(reg, res, name, value) == Handled(CallString(reg.strings[name], value))
  {
  }

  /**
   * Once a string handler is registered for a name, handlers of the other
   * kinds under that name are never called.
   */
  lemma StringHandlerShadows(reg: Registry, res: Resources, name: string, value: string)
    requires |value| < SizeModulus && name in reg.strings
    ensures KindOf(ApplyXMLAttribute(reg, res, name, value).call) == StringKind
  {
  }

  /** "auto" never falls through to the numeric branches and never raises. */
  lemma AutoValueGoesToAutoHandler(reg: Registry, res: Resources, name: string)
    requires name !in reg.strings
    ensures ApplyXMLAttribute(reg, res, name, "auto").Handled? <==> name in reg.autos
    ensures ApplyXMLAttribute(reg, res, name, "auto").Handled? ==>
      ApplyXMLAttribute(reg, res, name, "auto").call == CallAuto(reg.autos[name])
    ensures !ApplyXMLAttribute(reg, res, name, "auto").Raised?
  {
  }

  /** A "<n>%" value reaches the percentage handler, with n, exactly when 0 <= n <= 100. */
  lemma PercentageRange(reg: Registry, res: Resources, name: string, digits: string, f: real)
    requires |digits| + 1 < SizeModulus && name !in reg.strings && name in reg.percentages
    requires res.stof(digits) == Parsed(f)
    ensures ApplyXMLAttribute(reg, res, name, digits + "%") ==
      if 0.0 <= f <= 100.0 then Handled(CallPercentage(reg.percentages[name], f)) else Refused
  {
    var value := digits + "%";
    assert value[|value| - 1] == '%';
    assert value != "auto";
    assert !EndsWith(value, "px");
    assert EndsWith(value, "%");
    assert value[..|value| - 1] == digits;
  }

  /** A value starting with '#' is refused unless it has 7 or 9 characters. */
  lemma ColorLength(reg: Registry, res: Resources, name: string, value: string)
    requires |value| < SizeModulus && name !in reg.strings
    requires |value| > 0 && value[0] == '#' && value[|value| - 1] != '%' && value[|value| - 1] != 'x'
    ensures ApplyXMLAttribute(reg, res, name, value).Handled? ==>
      (|value| == 7 || |value| == 9) && ParseColor(value).Some? &&
      ApplyXMLAttribute(reg, res, name, value).call == CallColor(reg.colors[name], ParseColor(value).value)
    ensures !ApplyXMLAttribute(reg, res, name, value).Raised?
  {
    assert value != "auto" by { assert value[0] != "auto"[0]; }
    assert !StartsWith(value, "@style/") by { assert value[0] != "@style/"[0]; }
  }

  /** Every colour written as "#RRGGBBAA" reaches the colour handler unchanged. */
  lemma ColorAttributeRoundTrip(reg: Registry, res: Resources, name: string, c: Color)
    requires name !in reg.strings && name in reg.colors
    ensures ApplyXMLAttribute(reg, res, name, FormatRgba(c)) == Handled(CallColor(reg.colors[name], c))
  {
    var value := FormatRgba(c);
    ParseFormatRgba(c);
    assert value != "auto";
    assert !EndsWith(value, "px") by { assert value[|value| - 1] != 'x'; }
    assert !EndsWith(value, "%");
    assert !StartsWith(value, "@style/") by { assert value[0] != "@style/"[0]; }
    assert StartsWith(value, "#") by { assert value[..1] == "#"; }
  }

  /** The error applyXMLAttributes reports when dispatch refuses a pair or raises. */
  datatype AttributeError =
    | IllegalValue(tag: string, name: string, value: string)
    | UnknownAttribute(tag: string, name: string, value: string)
    | HandlerFailure(reason: string)

  /** The logic_error message the library throws for each error. */
  function Message(e: AttributeError): string
  {
    match e
    case IllegalValue(tag, name, value) =>
      "Illegal value \"" + value + "\" for \"" + tag + "\" XML attribute \"" + name + "\""
    case UnknownAttribute(tag, name, value) =>
      "Unknown XML attribute \"" + name + "\" for tag \"" + tag + "\" (with value \"" + value + "\")"
    case HandlerFailure(reason) => reason
  }

  /**
   * printXMLAttributeErrorMessage: a name that was ever registered, of any
   * kind, has an illegal value; any other name is unknown.
   */
  function RefusalError(reg: Registry, tag: string, name: string, value: string): (e: AttributeError)
    ensures e.IllegalValue? <==> name in reg.known
    ensures e.IllegalValue? || e.UnknownAttribute?
    ensures e.name == name && e.value == value && e.tag == tag
  {
    if name in reg.known then IllegalValue(tag, name, value) else UnknownAttribute(tag, name, value)
  }

  /** A name with a handler of any kind is reported as an illegal value, never as unknown. */
  lemma RegisteredNameIsIllegalValue(reg: Registry, tag: string, name: string, value: string, k: Kind)
    requires KnownCoversTables(reg) && name in Table(reg, k)
    ensures RefusalError(reg, tag, name, value).IllegalValue?
  {
  }

  /**
   * The exceptions the string handlers registered by views and boxes throw
   * for a value they do not recognise; None for every other call.
   */
  function HandlerError(call: Invocation): (r: Option<string>)
    ensures r.Some? ==> call.CallString?
  {
    match call
    case CallString(VisibilityByName, v) =>
      if v in {"visible", "invisible", "gone"} then None
      else Some("Illegal value \"" + v + "\" for XML attribute \"visibility\"")
    case CallString(AxisByName, v) =>
      if v in {"row", "column"} then None
      else Some("Illegal value \"" + v + "\" for \"brls::Box\" attribute \"axis\"")
    case CallString(DirectionByName, v) =>
      if v in {"inherit", "leftToRight", "rightToLeft"} then None
      else Some("Illegal value \"" + v + "\" for \"brls::Box\" attribute \"direction\"")
    case CallString(JustifyContentByName, v) =>
      if v in {"flexStart", "center", "flexEnd", "spaceBetween", "spaceAround", "spaceEvenly"} then None
      else Some("Illegal value \"" + v + "\" for \"brls::Box\" attribute \"justifyContent\"")
    case _ => None
  }

  datatype Attribute = Attribute(name: string, value: string)

  /** An XML element: its tag name, attributes in document order and child elements. */
  datatype Element = Element(name: string, attributes: seq<Attribute>, children: seq<Element>)

  /** What applying an element's attributes did: the handler calls made, then the error that stopped it, if any. */
  datatype Application = Application(calls: seq<Invocation>, error: Option<AttributeError>)

  predicate Fits(attrs: seq<Attribute>)
  {
    forall i :: 0 <= i < |attrs| ==> |attrs[i].value| < SizeModulus
  }

  /**
   * One pass of the loop in applyXMLAttributes: the attribute is dispatched
   * and its handler runs; the result holds the one call made, or the error
   * that stops the walk.
   */
  function Dispatch(reg: Registry, res: Resources, tag: string, a: Attribute): (r: Application)
    requires |a.value| < SizeModulus
    ensures |r.calls| <= 1
    ensures r.error.None? <==> |r.calls| == 1
    ensures |r.calls| == 1 ==> ApplyXMLAttribute(reg, res, a.name, a.value) == Handled(r.calls[0])
    ensures ApplyXMLAttribute(reg, res, a.name, a.value).Refused? ==>
      r.error == Some(RefusalError(reg, tag, a.name, a.value))
  {
    match ApplyXMLAttribute(reg, res, a.name, a.value)
    case Refused => Application([], Some(RefusalError(reg, tag, a.name, a.value)))
    case Raised(reason) => Application([], Some(HandlerFailure(reason)))
    case Handled(call) =>
      if HandlerError(call).Some? then Application([], Some(HandlerFailure(HandlerError(call).value)))
      else Application([call], None)
  }

  /**
   * applyXMLAttributes as a function of the attribute list: each pair is
   * dispatched in order and its handler runs; the first refusal, uncaught
   * exception or failing handler ends the walk with that error.
   */
  function ApplyAll(reg: Registry, res: Resources, tag: string, attrs: seq<Attribute>): (r: Application)
    requires Fits(attrs)
    ensures |r.calls| <= |attrs|
    ensures r.error.None? ==> |r.calls| == |attrs|
    ensures forall i :: 0 <= i < |r.calls| ==> ApplyXMLAttribute(reg, res, attrs[i].name, attrs[i].value) == Handled(r.calls[i])
  {
    if |attrs| == 0 then Application([], None)
    else
      var first := Dispatch(reg, res, tag, attrs[0]);
      if first.error.Some? then first
      else
        var rest := ApplyAll(reg, res, tag, attrs[1..]);
        Application(first.calls + rest.calls, rest.error)
  }

  /**
   * One step of ApplyAll, as a walk resumes it at position i after the
   * calls in done: a failing attribute ends the walk with its error and
   * adds no call, any other adds its call and the walk goes on at i + 1.
   */
  lemma ApplyAllStep(reg: Registry, res: Resources, tag: string, attrs: seq<Attribute>, i: nat, done: seq<Invocation>)
    requires Fits(attrs) && i < |attrs|
    ensures Fits(attrs[i..]) && Fits(attrs[i + 1..])
    ensures var first, now := Dispatch(reg, res, tag, attrs[i]), ApplyAll(reg, res, tag, attrs[i..]);
      if first.error.Some? then done + now.calls == done && now.error == first.error
      else
        var next := ApplyAll(reg, res, tag, attrs[i + 1..]);
        done + now.calls == (done + first.calls) + next.calls && now.error == next.error
  {
    assert attrs[i..][1..] == attrs[i + 1..];
    assert attrs[i..][0] == attrs[i];
    var first := Dispatch(reg, res, tag, attrs[i]);
    if first.error.Some? {
      CallsAppend(done, [], []);
    } else {
      CallsAppend(done, first.calls, ApplyAll(reg, res, tag, attrs[i + 1..]).calls);
    }
  }

  /** Appending call lists is associative and [] adds nothing. */
  lemma CallsAppend(a: seq<Invocation>, b: seq<Invocation>, c: seq<Invocation>)
    ensures a + (b + c) == (a + b) + c
    ensures a + [] == a
  {
  }
}
