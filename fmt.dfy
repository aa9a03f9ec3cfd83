/** The part of Go's fmt package that the argument builder relies on:
    printing a value with the verbs %v, %s, %d and %q, and Sprintf with a
    single operand. Flags, widths and precisions are not modelled. */
module Fmt {
  import opened Values

  function DigitChar(d: nat): char
    requires d < 10
  {
    "0123456789"[d]
  }

  /** Decimal text of a natural number, most significant digit first. */
  function NatToString(n: nat): (r: string)
    ensures |r| > 0
    ensures forall k :: 0 <= k < |r| ==> '0' <= r[k] <= '9'
  {
    if n < 10 then [DigitChar(n)] else NatToString(n / 10) + [DigitChar(n % 10)]
  }

  /** strconv.Itoa: decimal text with a leading minus for negatives. */
  function IntToString(i: int): (r: string)
    ensures |r| > 0 && (r[0] == '-' <==> i < 0)
    ensures forall k :: 0 < k < |r| ==> '0' <= r[k] <= '9'
  {
    if i < 0 then "-" + NatToString(-i) else NatToString(i)
  }

  const HexDigits: string := "0123456789abcdef"

  /** One character as strconv writes it inside a quoted literal delimited
      by `q` (a double quote for strings, a single quote for runes). ASCII
      control characters are escaped; every other character is kept. */
  function EscapeChar(c: char, q: char): string
  {
    if c == q || c == '\\' then ['\\', c]
    else if c == '\n' then "\\n"
    else if c == '\t' then "\\t"
    else if c == '\r' then "\\r"
    else if c == 7 as char then "\\a"
    else if c == 8 as char then "\\b"
    else if c == 12 as char then "\\f"
    else if c == 11 as char then "\\v"
    else if (c as int) < 0x20 || c as int == 0x7f then
      "\\x" + [HexDigits[c as int / 16], HexDigits[c as int % 16]]
    else [c]
  }

  function EscapeString(s: string, q: char): string
  {
    if s == [] then [] else EscapeChar(s[0], q) + EscapeString(s[1..], q)
  }

  /** strconv.Quote: a double-quoted Go string literal. */
  function QuoteString(s: string): string
  {
    "\"" + EscapeString(s, '"') + "\""
  }

  /** %q of an integer: a single-quoted character literal; a value that is
      not a Unicode scalar value prints as the replacement character. */
  function QuoteRune(i: int): string
  {
    if 0 <= i < 0xD800 || 0xE000 <= i < 0x11_0000 then
      "'" + EscapeChar(i as char, '\'') + "'"
    else
      "'" + [0xFFFD as char] + "'"
  }

  /** The type name fmt prints in its diagnostics. Composite types are
      named by their shape only. */
  function TypeName(v: Value): string
  {
    match v
    case Nil => "<nil>"
    case Bool(_) => "bool"
    case Int(_) => "int"
    case Str(_) => "string"
    case Slice(_) => "[]interface {}"
    case Array(_) => "array"
    case Map(_) => "map"
    case Struct(_) => "struct"
    case Ptr(t) => "*" + TypeName(t)
  }

  /** fmt's "%!verb(type=value)" text for a verb that does not apply. */
  function BadVerb(verb: char, v: Value, shown: string): string
  {
    if v.Nil? then "%!" + [verb] + "(<nil>)"
    else "%!" + [verb] + "(" + TypeName(v) + "=" + shown + ")"
  }

  /** The text fmt prints for `v` under `verb`. Slices, arrays, maps and
      structs apply the verb to each element, separated by spaces. Every
      pointer prints as `&` followed by its target; fmt prints an address
      instead for a nested pointer or a pointer to a scalar, and addresses
      are not modelled. */
  function Format(verb: char, v: Value): string
    decreases v
  {
    match v
    case Nil =>
      if verb == 'v' then "<nil>" else BadVerb(verb, v, "")
    case Bool(b) =>
      var t := if b then "true" else "false";
      if verb == 'v' || verb == 't' then t else BadVerb(verb, v, t)
    case Int(i) =>
      if verb == 'v' || verb == 'd' then IntToString(i)
      else if verb == 'q' then QuoteRune(i)
      else BadVerb(verb, v, IntToString(i))
    case Str(s) =>
      if verb == 'v' || verb == 's' then s
      else if verb == 'q' then QuoteString(s)
      else BadVerb(verb, v, s)
    case Slice(es) => "[" + FormatList(verb, es) + "]"
    case Array(es) => "[" + FormatList(verb, es) + "]"
    case Map(kvs) => "map[" + FormatEntries(verb, kvs) + "]"
    case Struct(fs) => "{" + FormatFields(verb, fs) + "}"
    case Ptr(t) => "&" + Format(verb, t)
  }

  function FormatList(verb: char, es: seq<Value>): string
    decreases es
  {
    if es == [] then ""
    else if |es| == 1 then Format(verb, es[0])
    else Format(verb, es[0]) + " " + FormatList(verb, es[1..])
  }

  function FormatEntries(verb: char, kvs: seq<Entry>): string
    decreases kvs
  {
    if kvs == [] then ""
    else if |kvs| == 1 then FormatEntry(verb, kvs[0])
    else FormatEntry(verb, kvs[0]) + " " + FormatEntries(verb, kvs[1..])
  }

  function FormatEntry(verb: char, e: Entry): string
    decreases e
  {
    Format(verb, e.key) + ":" + Format(verb, e.val)
  }

  function FormatFields(verb: char, fs: seq<Field>): string
    decreases fs
  {
    if fs == [] then ""
    else if |fs| == 1 then Format(verb, fs[0].value)
    else Format(verb, fs[0].value) + " " + FormatFields(verb, fs[1..])
  }

  /** fmt.Sprintf(format, v) with exactly one operand: the first verb
      consumes `v`, later verbs report it missing, `%%` is a literal percent
      sign, and an operand no verb consumed is reported as extra. */
  function Sprintf(format: string, v: Value): string
  {
    Printf(format, v, false)
  }

  function Printf(f: string, v: Value, used: bool): string
    decreases |f|
  {
    if f == [] then
      if used then "" else "%!(EXTRA " + TypeName(v) + "=" + Format('v', v) + ")"
    else if f[0] != '%' then [f[0]] + Printf(f[1..], v, used)
    else if |f| == 1 then "%!(NOVERB)" + Printf([], v, used)
    else if f[1] == '%' then "%" + Printf(f[2..], v, used)
    else if used then "%!" + [f[1]] + "(MISSING)" + Printf(f[2..], v, used)
    else Format(f[1], v) + Printf(f[2..], v, true)
  }
}
