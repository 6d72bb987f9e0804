/** The parts of nlohmann::json that parseForecastJSON relies on: the value
    tree, lookup through `operator[]` on a non-const document, and the
    compact `dump()` serialisation. Parsing text into a tree is the library's
    job and is not modelled; a parse is given as an `Option<Json>`. */
module JsonModel {
  import opened Outcomes
  import opened DecimalText

  /** A JSON value. Integers (signed or unsigned) and floating-point numbers
      are kept apart, as the library keeps them. The library's objects hold
      unique keys in ascending order; this datatype also admits trees it
      never builds (duplicate or unsorted keys), where lookup takes the first
      match. */
  datatype Json =
    | Null
    | Boolean(b: bool)
    | Integer(i: int)
    | Float(x: real)
    | String(s: string)
    | Array(elems: seq<Json>)
    | Object(members: seq<(string, Json)>)

  /** One `operator[]` step: by key or by array index. */
  datatype Step = Key(name: string) | Index(n: nat)

  /** The value stored under `k`, if any. */
  function Member(members: seq<(string, Json)>, k: string): (r: Option<Json>)
    ensures r.Some? <==> exists i :: 0 <= i < |members| && members[i].0 == k
    ensures r.Some? ==> exists i :: 0 <= i < |members| && members[i] == (k, r.value)
  {
    if members == [] then None
    else if members[0].0 == k then Some(members[0].1)
    else
      var r := Member(members[1..], k);
      assert forall i :: 0 < i < |members| ==> members[i] == members[1..][i - 1];
      r
  }

  /** The first member stored under `k` is the one found. */
  lemma {:induction false} MemberAt(members: seq<(string, Json)>, i: nat, k: string)
    requires i < |members| && members[i].0 == k
    requires forall j :: 0 <= j < i ==> members[j].0 != k
    ensures Member(members, k) == Some(members[i].1)
  {
    if i > 0 {
      MemberAt(members[1..], i - 1, k);
    }
  }

  /** One `operator[]` on a non-const document. A null value first becomes an
      empty container, and a missing key or an index past the end is filled
      in with null, so both read as null; a key on anything but an object or
      null, or an index on anything but an array or null, throws a type error
      (`None`). */
  function Child(j: Json, step: Step): (r: Option<Json>)
    ensures r.None? <==> !(j.Null? || (j.Object? && step.Key?) || (j.Array? && step.Index?))
    ensures j.Null? ==> r == Some(Null)
    ensures j.Array? && step.Index? && step.n < |j.elems| ==> r == Some(j.elems[step.n])
    ensures j.Array? && step.Index? && step.n >= |j.elems| ==> r == Some(Null)
    ensures j.Object? && step.Key? && Member(j.members, step.name).Some? ==> r == Member(j.members, step.name)
    ensures j.Object? && step.Key? && Member(j.members, step.name).None? ==> r == Some(Null)
  {
    match (j, step)
    case (Null, _) => Some(Null)
    case (Object(ms), Key(k)) => Some(Member(ms, k).GetOr(Null))
    case (Array(es), Index(n)) => Some(if n < |es| then es[n] else Null)
    case _ => None
  }

  /** A chain of `operator[]` steps; `None` when one of them throws. */
  function Lookup(j: Json, path: seq<Step>): Option<Json>
    decreases |path|
  {
    if path == [] then Some(j)
    else
      match Child(j, path[0])
      case None => None
      case Some(c) => Lookup(c, path[1..])
  }

  /** Every chain of steps into a null document reads null: this is the
      document a failed parse leaves behind. */
  lemma {:induction false} LookupNull(path: seq<Step>)
    ensures Lookup(Null, path) == Some(Null)
  {
    if path != [] {
      LookupNull(path[1..]);
    }
  }

  /** Looking up `p + q` is looking up `p`, then `q` in what was found. */
  lemma {:induction false} LookupAppend(j: Json, p: seq<Step>, q: seq<Step>)
    ensures Lookup(j, p + q) == match Lookup(j, p) case None => None case Some(c) => Lookup(c, q)
    decreases |p|
  {
    if p == [] {
      assert p + q == q;
    } else {
      assert (p + q)[0] == p[0];
      assert (p + q)[1..] == p[1..] + q;
      match Child(j, p[0])
      case None =>
      case Some(c) => LookupAppend(c, p[1..], q);
    }
  }

  /** The smallest document that holds `leaf` at the end of `path`. */
  function Build(path: seq<Step>, leaf: Json): Json
    decreases |path|
  {
    if path == [] then leaf
    else
      match path[0]
      case Key(k) => Object([(k, Build(path[1..], leaf))])
      case Index(n) => Array(seq(n, _ => Null) + [Build(path[1..], leaf)])
  }

  lemma {:induction false} LookupBuild(path: seq<Step>, leaf: Json)
    ensures Lookup(Build(path, leaf), path) == Some(leaf)
  {
    if path != [] {
      var inner := Build(path[1..], leaf);
      LookupBuild(path[1..], leaf);
      match path[0]
      case Key(k) =>
        assert Member([(k, inner)], k) == Some(inner);
      case Index(n) =>
        assert (seq(n, _ => Null) + [inner])[n] == inner;
    }
  }

  function HexDigit(d: nat): char
    requires d < 16
  {
    "0123456789abcdef"[d]
  }

  const Backspace: char := 8 as char
  const FormFeed: char := 12 as char

  /** How `dump()` writes one character inside a string: quote, backslash
      and the five named controls get a two-character escape, any other
      control character below 0x20 becomes \u00XX, the rest is copied. */
  function EscapeChar(c: char): (e: string)
    ensures |e| >= 1
    ensures e[0] == '\\' <==> (c == '"' || c == '\\' || c < ' ')
    ensures e[0] != '"'
  {
    if c == '"' then "\\\""
    else if c == '\\' then "\\\\"
    else if c == Backspace then "\\b"
    else if c == FormFeed then "\\f"
    else if c == '\n' then "\\n"
    else if c == '\r' then "\\r"
    else if c == '\t' then "\\t"
    else if c < ' ' then "\\u00" + [HexDigit(c as int / 16), HexDigit(c as int % 16)]
    else [c]
  }

  function Escape(s: string): string {
    if s == [] then [] else EscapeChar(s[0]) + Escape(s[1..])
  }

  /** `dump()` of a string value: the escaped text between double quotes. */
  function Quote(s: string): (q: string)
    ensures |q| >= 2 && q[0] == '"' && q[|q| - 1] == '"'
  {
    "\"" + Escape(s) + "\""
  }

  function Join(parts: seq<string>): string {
    if parts == [] then []
    else if |parts| == 1 then parts[0]
    else parts[0] + "," + Join(parts[1..])
  }

  /** `dump()` with no indentation. The library's shortest round-trip text for
      a floating-point number is not modelled: `floatText` supplies it. */
  function Dump(j: Json, floatText: real -> string): string
    decreases j
  {
    match j
    case Null => "null"
    case Boolean(b) => if b then "true" else "false"
    case Integer(i) => Dec(i)
    case Float(x) => floatText(x)
    case String(s) => Quote(s)
    case Array(es) =>
      "[" + Join(seq(|es|, i requires 0 <= i < |es| => Dump(es[i], floatText))) + "]"
    case Object(ms) =>
      "{" + Join(seq(|ms|, i requires 0 <= i < |ms| => Quote(ms[i].0) + ":" + Dump(ms[i].1, floatText))) + "}"
  }

  function HexValue(c: char): Option<nat> {
    if '0' <= c <= '9' then Some(c as int - '0' as int)
    else if 'a' <= c <= 'f' then Some(c as int - 'a' as int + 10)
    else if 'A' <= c <= 'F' then Some(c as int - 'A' as int + 10)
    else None
  }

  /** The character a four-digit \u escape names (surrogates are refused). */
  function CodePoint(h: string): Option<char>
    requires |h| == 4
  {
    match (HexValue(h[0]), HexValue(h[1]), HexValue(h[2]), HexValue(h[3]))
    case (Some(a), Some(b), Some(c), Some(d)) =>
      var v := ((a * 16 + b) * 16 + c) * 16 + d;
      if v < 0xD800 || 0xE000 <= v then Some(v as char) else None
    case _ => None
  }

  /** Reads the inside of a JSON string literal back into its text. */
  function Unescape(t: string): Option<string>
    decreases |t|
  {
    if t == [] then Some([])
    else if t[0] == '"' then None
    else if t[0] != '\\' then
      var rest :- Unescape(t[1..]);
      Some([t[0]] + rest)
    else if |t| < 2 then None
    else
      var c :- match t[1]
        case '"' => Some('"')
        case '\\' => Some('\\')
        case '/' => Some('/')
        case 'b' => Some(Backspace)
        case 'f' => Some(FormFeed)
        case 'n' => Some('\n')
        case 'r' => Some('\r')
        case 't' => Some('\t')
        case 'u' => if |t| < 6 then None else CodePoint(t[2..6])
        case _ => None;
      var used := if t[1] == 'u' then 6 else 2;
      var rest :- Unescape(t[used..]);
      Some([c] + rest)
  }

  /** Reads a JSON string literal, quotes included, back into its text. */
  function Unquote(q: string): Option<string> {
    if |q| < 2 || q[0] != '"' || q[|q| - 1] != '"' then None
    else Unescape(q[1..|q| - 1])
  }

  /** A control character without a short escape reads back from its
      six-character `\u00xx` form. */
  lemma UnescapeControl(c: char, rest: string)
    requires c < ' ' && c != Backspace && c != FormFeed && c != '\n' && c != '\r' && c != '\t'
    ensures Unescape(EscapeChar(c) + rest)
            == match Unescape(rest) case None => None case Some(r) => Some([c] + r)
  {
    var t := EscapeChar(c) + rest;
    assert t[0] == '\\' && t[1] == 'u';
    assert t[2..6] == "00" + [HexDigit(c as int / 16), HexDigit(c as int % 16)];
    assert CodePoint(t[2..6]) == Some(c);
    assert t[6..] == rest;
  }

  lemma UnescapeEscapeChar(c: char, rest: string)
    ensures Unescape(EscapeChar(c) + rest)
            == match Unescape(rest) case None => None case Some(r) => Some([c] + r)
  {
    var e := EscapeChar(c);
    if c < ' ' && c != Backspace && c != FormFeed && c != '\n' && c != '\r' && c != '\t' {
      UnescapeControl(c, rest);
    } else if e[0] == '\\' {
      assert (e + rest)[2..] == rest;
    } else {
      assert (e + rest)[1..] == rest;
    }
  }

  lemma {:induction false} UnescapeEscape(s: string)
    ensures Unescape(Escape(s)) == Some(s)
  {
    if s != [] {
      UnescapeEscape(s[1..]);
      UnescapeEscapeChar(s[0], Escape(s[1..]));
      assert [s[0]] + s[1..] == s;
    }
  }

  /** `dump()` of a string keeps the whole text: it can be read back. */
  lemma UnquoteQuote(s: string)
    ensures Unquote(Quote(s)) == Some(s)
  {
    var q := Quote(s);
    assert q[1..|q| - 1] == Escape(s);
    UnescapeEscape(s);
  }

  /** A string without quotes, backslashes or control characters is dumped
      as itself between double quotes (as a weather symbol code is). */
  lemma {:induction false} QuotePlain(s: string)
    requires forall i :: 0 <= i < |s| ==> s[i] != '"' && s[i] != '\\' && s[i] >= ' '
    ensures Quote(s) == "\"" + s + "\""
  {
    PlainEscape(s);
  }

  lemma {:induction false} PlainEscape(s: string)
    requires forall i :: 0 <= i < |s| ==> s[i] != '"' && s[i] != '\\' && s[i] >= ' '
    ensures Escape(s) == s
  {
    if s != [] {
      PlainEscape(s[1..]);
      assert [s[0]] + s[1..] == s;
    }
  }
}
