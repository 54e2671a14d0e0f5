/**
 * The text an idempotency key's request is hashed from: object keys sorted,
 * undefined fields dropped, scalars as JSON.stringify writes them. Two requests
 * have one text exactly when they say the same thing.
 */
module CanonicalText {
  import opened Wrappers

  datatype Json =
    | Undefined
    | Null
    | Bool(b: bool)
    | Num(text: string)
    | Str(s: string)
    | Arr(items: seq<Json>)
    | Obj(fields: seq<Field>)

  datatype Field = Field(name: string, value: Json)

  // ------------------------------------------------------------------ scalars

  function Hex(d: nat): char
    requires d < 16
  {
    "0123456789abcdef"[d]
  }

  /** One character of a string literal, section 7 of RFC 8259. */
  function EscapeChar(c: char): string {
    if c == '"' then "\\\""
    else if c == '\\' then "\\\\"
    else if c == 8 as char then "\\b"
    else if c == 12 as char then "\\f"
    else if c == '\n' then "\\n"
    else if c == '\r' then "\\r"
    else if c == '\t' then "\\t"
    else if c < ' ' then "\\u00" + [Hex(c as int / 16), Hex(c as int % 16)]
    else [c]
  }

  function Escape(s: string): string {
    if s == "" then "" else EscapeChar(s[0]) + Escape(s[1..])
  }

  function Quote(s: string): string { "\"" + Escape(s) + "\"" }

  function HexValue(c: char): Option<nat> {
    if '0' <= c <= '9' then Some(c as int - '0' as int)
    else if 'a' <= c <= 'f' then Some(c as int - 'a' as int + 10)
    else if 'A' <= c <= 'F' then Some(c as int - 'A' as int + 10)
    else None
  }

  /** The character a `\\u` escape stands for; half of a surrogate pair stands for none. */
  function CodeUnit(a: char, b: char, c: char, d: char): Option<char> {
    match (HexValue(a), HexValue(b), HexValue(c), HexValue(d))
    case (Some(h), Some(i), Some(j), Some(k)) =>
      var code := 4096 * h + 256 * i + 16 * j + k;
      if code < 0xD800 || 0xE000 <= code < 0x1_0000 then Some(code as char) else None
    case _ => None
  }

  /** What a backslash and one more character stand for. */
  function ShortEscape(c: char): Option<char> {
    if c == '"' || c == '\\' || c == '/' then Some(c)
    else if c == 'b' then Some(8 as char)
    else if c == 'f' then Some(12 as char)
    else if c == 'n' then Some(10 as char)
    else if c == 'r' then Some(13 as char)
    else if c == 't' then Some(9 as char)
    else None
  }

  /** Reading one character of a string literal, by the grammar of section 7 of RFC 8259. */
  function ReadChar(t: string): (r: Option<(char, string)>)
    ensures r.Some? ==> |r.value.1| < |t|
  {
    if t == "" || t[0] == '"' || t[0] < ' ' then None
    else if t[0] != '\\' then Some((t[0], t[1..]))
    else if |t| == 1 then None
    else if t[1] == 'u' then
      if |t| < 6 then None
      else match CodeUnit(t[2], t[3], t[4], t[5])
           case Some(c) => Some((c, t[6..]))
           case None => None
    else match ShortEscape(t[1])
         case Some(c) => Some((c, t[2..]))
         case None => None
  }

  /** Reading the rest of a string literal, up to and with its closing quote. */
  function ReadString(t: string): Option<(string, string)>
    decreases |t|
  {
    if t != "" && t[0] == '"' then Some(("", t[1..]))
    else match ReadChar(t)
         case None => None
         case Some((c, rest)) =>
           match ReadString(rest)
           case Some((s, after)) => Some(([c] + s, after))
           case None => None
  }

  lemma {:induction false} HexIsUndone(d: nat)
    requires d < 16
    ensures HexValue(Hex(d)) == Some(d)
  {
  }

  lemma {:induction false} EscapeCharIsUndone(c: char, k: string)
    ensures EscapeChar(c) != "" && EscapeChar(c)[0] != '"' && ReadChar(EscapeChar(c) + k) == Some((c, k))
  {
    var t := EscapeChar(c) + k;
    if |EscapeChar(c)| == 6 {
      HexIsUndone(c as int / 16);
      HexIsUndone(c as int % 16);
      assert t[6..] == k;
    } else if |EscapeChar(c)| == 2 {
      assert t[2..] == k;
    } else {
      assert t[1..] == k;
    }
  }

  /**
   * Only quotes, backslashes and control characters are escaped, by two characters
   * where the grammar has such an escape and otherwise by six, in lower-case hex.
   */
  lemma {:induction false} EscapedAsBrieflyAsCanBe(c: char, e: char)
    ensures |EscapeChar(c)| == 1 <==> c >= ' ' && c != '"' && c != '\\'
    ensures e != '/' && ShortEscape(e) == Some(c) ==> EscapeChar(c) == ['\\', e]
    ensures |EscapeChar(c)| != 1 && |EscapeChar(c)| != 2 ==> |EscapeChar(c)| == 6 && EscapeChar(c)[..4] == "\\u00"
    ensures forall d :: d in EscapeChar(c) && 'A' <= d <= 'F' ==> c == d
  {
    if |EscapeChar(c)| == 6 {
      assert EscapeChar(c) == "\\u00" + [Hex(c as int / 16), Hex(c as int % 16)];
    }
  }

  lemma {:induction false} EscapeIsUndone(s: string, k: string)
    ensures ReadString(Escape(s) + ("\"" + k)) == Some((s, k))
  {
    if s == "" {
      ClosingQuote(k);
    } else {
      var rest := Escape(s[1..]) + ("\"" + k);
      EscapeIsUndone(s[1..], k);
      EscapeCharIsUndone(s[0], rest);
      EscapeSplits(s, k);
      ReadOneMore(EscapeChar(s[0]) + rest, s[0], rest, s[1..], k);
    }
  }

  lemma {:induction false} ClosingQuote(k: string)
    ensures "" + ("\"" + k) == "\"" + k && ReadString("\"" + k) == Some(("", k))
  {
    assert ("\"" + k)[1..] == k;
  }

  lemma {:induction false} EscapeSplits(s: string, k: string)
    requires s != ""
    ensures Escape(s) + ("\"" + k) == EscapeChar(s[0]) + (Escape(s[1..]) + ("\"" + k))
    ensures [s[0]] + s[1..] == s
  {
    Regroup(EscapeChar(s[0]), Escape(s[1..]), "\"" + k);
  }

  lemma {:induction false} ReadOneMore(t: string, c: char, rest: string, s: string, k: string)
    requires t != "" && t[0] != '"' && ReadChar(t) == Some((c, rest)) && ReadString(rest) == Some((s, k))
    ensures ReadString(t) == Some(([c] + s, k))
  {
  }

  /** By that grammar a quoted string reads as itself, whatever text follows it. */
  lemma {:induction false} QuoteIsUndone(s: string, k: string)
    ensures Quote(s)[0] == '"' && ReadString((Quote(s) + k)[1..]) == Some((s, k))
  {
    InsideQuotes(Escape(s), k);
    EscapeIsUndone(s, k);
  }

  lemma {:induction false} InsideQuotes(e: string, k: string)
    ensures (("\"" + e + "\"") + k)[1..] == e + ("\"" + k)
  {
    assert ("\"" + e + "\"") + k == "\"" + (e + ("\"" + k));
  }

  /** Every further text behind a comma. */
  function Rest(texts: seq<string>): string {
    if texts == [] then "" else "," + texts[0] + Rest(texts[1..])
  }

  function Join(texts: seq<string>): string {
    if texts == [] then "" else texts[0] + Rest(texts[1..])
  }

  // ------------------------------------------------------------------ sorting

  /** The comparison the sort is given, taken as a strict total order on names. */
  ghost predicate StrictTotalOrder(less: (string, string) -> bool) {
    && (forall a :: !less(a, a))
    && (forall a, b {:trigger less(a, b), less(b, a)} :: less(a, b) || less(b, a) || a == b)
    && (forall a, b, c :: less(a, b) && less(b, c) ==> less(a, c))
  }

  function Insert(f: Field, sorted: seq<Field>, less: (string, string) -> bool): (r: seq<Field>)
    ensures forall g :: g in r <==> g == f || g in sorted
  {
    if sorted == [] || less(f.name, sorted[0].name) then [f] + sorted
    else
      var r := [sorted[0]] + Insert(f, sorted[1..], less);
      assert forall g :: g in sorted <==> g == sorted[0] || g in sorted[1..];
      r
  }

  function Sort(fields: seq<Field>, less: (string, string) -> bool): (r: seq<Field>)
    ensures forall g :: g in r <==> g in fields
  {
    if fields == [] then [] else
      assert forall g :: g in fields <==> g == fields[0] || g in fields[1..];
      Insert(fields[0], Sort(fields[1..], less), less)
  }

  function Defined(fields: seq<Field>): (r: seq<Field>)
    ensures forall g :: g in r <==> g in fields && !g.value.Undefined?
  {
    if fields == [] then [] else
      assert forall g :: g in fields <==> g == fields[0] || g in fields[1..];
      (if fields[0].value.Undefined? then [] else [fields[0]]) + Defined(fields[1..])
  }

  // ------------------------------------------------------------- canonicalise

  function Canonicalise(v: Json, less: (string, string) -> bool): string {
    match v
    case Undefined => "null"
    case Null => "null"
    case Bool(b) => if b then "true" else "false"
    case Num(text) => text
    case Str(s) => Quote(s)
    case Arr(items) => "[" + Join(seq(|items|, i requires 0 <= i < |items| => Canonicalise(items[i], less))) + "]"
    case Obj(fields) =>
      var entries := Sort(Defined(fields), less);
      "{" + Join(seq(|entries|, i requires 0 <= i < |entries| =>
        assert entries[i] in fields;
        Quote(entries[i].name) + ":" + Canonicalise(entries[i].value, less))) + "}"
  }

  // ---------------------------------------------------- saying the same thing

  /** Equal as requests: undefined fields count for nothing, and neither does the order of fields. */
  predicate Same(v: Json, w: Json)
    decreases v
  {
    match (v, w)
    case (Bool(b), Bool(c)) => b == c
    case (Num(s), Num(t)) => s == t
    case (Str(s), Str(t)) => s == t
    case (Arr(vs), Arr(ws)) => |vs| == |ws| && forall i :: 0 <= i < |vs| ==> Same(vs[i], ws[i])
    case (Obj(fs), Obj(gs)) =>
      && (forall f :: f in fs && !f.value.Undefined? ==> MatchedIn(f, gs))
      && (forall g :: g in gs && !g.value.Undefined? ==> MatchedBy(fs, g))
    case _ => (v.Undefined? || v.Null?) && (w.Undefined? || w.Null?)
  }

  predicate MatchedIn(f: Field, gs: seq<Field>)
    decreases f
  {
    exists g :: g in gs && !g.value.Undefined? && g.name == f.name && Same(f.value, g.value)
  }

  predicate MatchedBy(fs: seq<Field>, g: Field)
    decreases fs
  {
    exists f :: f in fs && !f.value.Undefined? && f.name == g.name && Same(f.value, g.value)
  }

  predicate Distinct(fields: seq<Field>) {
    forall i, j :: 0 <= i < j < |fields| ==> fields[i].name != fields[j].name
  }

  /** What JSON.stringify writes for a finite number starts and goes on with these. */
  predicate NumberText(t: string) {
    t != "" && forall i :: 0 <= i < |t| ==> t[i] in "+-.0123456789e"
  }

  predicate Valid(v: Json) {
    match v
    case Num(t) => NumberText(t)
    case Arr(items) => forall i :: 0 <= i < |items| ==> Valid(items[i])
    case Obj(fields) => Distinct(fields) && forall f :: f in fields ==> Valid(f.value)
    case _ => true
  }

  // ------------------------------------------------------------- normal forms

  /** The value itself in one standard form: no undefined, fields in order. */
  function Normalise(v: Json, less: (string, string) -> bool): Json {
    match v
    case Undefined => Null
    case Arr(items) => Arr(seq(|items|, i requires 0 <= i < |items| => Normalise(items[i], less)))
    case Obj(fields) =>
      var entries := Sort(Defined(fields), less);
      Obj(seq(|entries|, i requires 0 <= i < |entries| =>
        assert entries[i] in fields;
        Field(entries[i].name, Normalise(entries[i].value, less))))
    case _ => v
  }

  predicate Plain(v: Json) {
    match v
    case Undefined => false
    case Num(t) => NumberText(t)
    case Arr(items) => forall i :: 0 <= i < |items| ==> Plain(items[i])
    case Obj(fields) => forall i :: 0 <= i < |fields| ==> Plain(fields[i].value)
    case _ => true
  }

  /** Plain printing in front of a text `k`, which neither drops nor moves anything. */
  function Print(v: Json, k: string): string
    decreases v, 0
  {
    match v
    case Undefined => "null" + k
    case Null => "null" + k
    case Bool(b) => (if b then "true" else "false") + k
    case Num(text) => text + k
    case Str(s) => PrintQuoted(s, k)
    case Arr(items) => "[" + PrintItems(items, "]" + k)
    case Obj(fields) => "{" + PrintFields(fields, "}" + k)
  }

  function PrintQuoted(s: string, k: string): string {
    "\"" + (Escape(s) + ("\"" + k))
  }

  function PrintItems(items: seq<Json>, k: string): string
    decreases items, 2
  {
    if items == [] then k else Print(items[0], PrintMore(items[1..], k))
  }

  function PrintMore(items: seq<Json>, k: string): string
    decreases items, 1
  {
    if items == [] then k else "," + Print(items[0], PrintMore(items[1..], k))
  }

  function PrintField(f: Field, k: string): string
    decreases f, 0
  {
    PrintQuoted(f.name, ":" + Print(f.value, k))
  }

  function PrintFields(fields: seq<Field>, k: string): string
    decreases fields, 2
  {
    if fields == [] then k else PrintField(fields[0], PrintMoreFields(fields[1..], k))
  }

  function PrintMoreFields(fields: seq<Field>, k: string): string
    decreases fields, 1
  {
    if fields == [] then k else "," + PrintField(fields[0], PrintMoreFields(fields[1..], k))
  }

  // --------------------------- canonicalising is printing the standard form

  ghost predicate PrintsAs(text: string, v: Json) {
    forall k :: text + k == Print(v, k)
  }

  ghost predicate PrintsAsField(text: string, f: Field) {
    forall k :: text + k == PrintField(f, k)
  }

  lemma {:induction false} Regroup(a: string, b: string, c: string)
    ensures (a + b) + c == a + (b + c)
  {
  }

  lemma {:induction false} RestPrints(texts: seq<string>, items: seq<Json>, k: string)
    requires |texts| == |items| && forall i :: 0 <= i < |items| ==> PrintsAs(texts[i], items[i])
    ensures Rest(texts) + k == PrintMore(items, k)
  {
    if texts != [] {
      RestPrints(texts[1..], items[1..], k);
      Regroup("," + texts[0], Rest(texts[1..]), k);
      Regroup(",", texts[0], Rest(texts[1..]) + k);
      assert PrintsAs(texts[0], items[0]);
    }
  }

  lemma {:induction false} JoinPrints(texts: seq<string>, items: seq<Json>, k: string)
    requires |texts| == |items| && forall i :: 0 <= i < |items| ==> PrintsAs(texts[i], items[i])
    ensures Join(texts) + k == PrintItems(items, k)
  {
    if texts == [] {
      assert "" + k == k;
    } else {
      RestPrints(texts[1..], items[1..], k);
      Regroup(texts[0], Rest(texts[1..]), k);
      assert PrintsAs(texts[0], items[0]);
    }
  }

  lemma {:induction false} RestPrintsFields(texts: seq<string>, fields: seq<Field>, k: string)
    requires |texts| == |fields| && forall i :: 0 <= i < |fields| ==> PrintsAsField(texts[i], fields[i])
    ensures Rest(texts) + k == PrintMoreFields(fields, k)
  {
    if texts != [] {
      RestPrintsFields(texts[1..], fields[1..], k);
      Regroup("," + texts[0], Rest(texts[1..]), k);
      Regroup(",", texts[0], Rest(texts[1..]) + k);
      assert PrintsAsField(texts[0], fields[0]);
    }
  }

  lemma {:induction false} JoinPrintsFields(texts: seq<string>, fields: seq<Field>, k: string)
    requires |texts| == |fields| && forall i :: 0 <= i < |fields| ==> PrintsAsField(texts[i], fields[i])
    ensures Join(texts) + k == PrintFields(fields, k)
  {
    if texts == [] {
      assert "" + k == k;
    } else {
      RestPrintsFields(texts[1..], fields[1..], k);
      Regroup(texts[0], Rest(texts[1..]), k);
      assert PrintsAsField(texts[0], fields[0]);
    }
  }

  lemma {:induction false} Wrap(open: string, inner: string, close: string, k: string)
    ensures (open + inner + close) + k == open + (inner + (close + k))
  {
  }

  lemma {:induction false} EntryPrints(name: string, text: string, v: Json)
    requires PrintsAs(text, v)
    ensures PrintsAsField(Quote(name) + ":" + text, Field(name, v))
  {
    forall k ensures (Quote(name) + ":" + text) + k == PrintField(Field(name, v), k) {
      Wrap(Quote(name), ":", text, k);
      Wrap("\"", Escape(name), "\"", ":" + (text + k));
    }
  }

  lemma {:induction false} CanonicalisePrintsNormalForm(v: Json, less: (string, string) -> bool)
    ensures PrintsAs(Canonicalise(v, less), Normalise(v, less))
  {
    match v
    case Str(s) =>
      forall k ensures Quote(s) + k == PrintQuoted(s, k) {
        Wrap("\"", Escape(s), "\"", k);
      }
    case Arr(items) =>
      var texts := seq(|items|, i requires 0 <= i < |items| => Canonicalise(items[i], less));
      var normal := Normalise(v, less).items;
      forall i | 0 <= i < |items| ensures PrintsAs(texts[i], normal[i]) {
        CanonicalisePrintsNormalForm(items[i], less);
      }
      forall k ensures Canonicalise(v, less) + k == Print(Normalise(v, less), k) {
        Wrap("[", Join(texts), "]", k);
        JoinPrints(texts, normal, "]" + k);
      }
    case Obj(fields) =>
      var entries := Sort(Defined(fields), less);
      var texts := seq(|entries|, i requires 0 <= i < |entries| =>
        assert entries[i] in fields;
        Quote(entries[i].name) + ":" + Canonicalise(entries[i].value, less));
      var normal := Normalise(v, less).fields;
      forall i | 0 <= i < |entries| ensures PrintsAsField(texts[i], normal[i]) {
        assert entries[i] in fields;
        CanonicalisePrintsNormalForm(entries[i].value, less);
        EntryPrints(entries[i].name, Canonicalise(entries[i].value, less), Normalise(entries[i].value, less));
      }
      forall k ensures Canonicalise(v, less) + k == Print(Normalise(v, less), k) {
        Wrap("{", Join(texts), "}", k);
        JoinPrintsFields(texts, normal, "}" + k);
      }
    case _ =>
  }

  // ------------------------------------------------- printing loses nothing

  /** What may follow a value in a text. */
  predicate Stop(x: string) {
    x == "" || x[0] in ",]}"
  }

  lemma {:induction false} Cancel(a: string, x: string, y: string)
    requires a + x == a + y
    ensures x == y
  {
    assert (a + x)[|a|..] == x && (a + y)[|a|..] == y;
  }

  lemma {:induction false} HexIsInjective(d: nat, e: nat)
    requires d < 16 && e < 16 && Hex(d) == Hex(e)
    ensures d == e
  {
    assert forall i, j :: 0 <= i < j < 16 ==> "0123456789abcdef"[i] != "0123456789abcdef"[j];
  }

  lemma {:induction false} EscapedCharsArePrefixFree(c: char, x: string, d: char, y: string)
    requires EscapeChar(c) + x == EscapeChar(d) + y
    ensures c == d && x == y
  {
    var a, b := EscapeChar(c), EscapeChar(d);
    assert (a + x)[0] == a[0] && (b + y)[0] == b[0];
    if a[0] == '\\' {
      assert (a + x)[1] == a[1] && (b + y)[1] == b[1];
      if a[1] == 'u' {
        assert (a + x)[4] == a[4] && (b + y)[4] == b[4];
        assert (a + x)[5] == a[5] && (b + y)[5] == b[5];
        HexIsInjective(c as int / 16, d as int / 16);
        HexIsInjective(c as int % 16, d as int % 16);
      }
    }
    Cancel(a, x, y);
  }

  lemma {:induction false} EscapeNeverClosesQuote(s: string, x: string)
    requires s != ""
    ensures (Escape(s) + x)[0] != '"'
  {
    assert (Escape(s) + x)[0] == EscapeChar(s[0])[0];
  }

  lemma {:induction false} EscapesArePrefixFree(s: string, x: string, t: string, y: string)
    requires Escape(s) + ("\"" + x) == Escape(t) + ("\"" + y)
    ensures s == t && x == y
  {
    if s == "" {
      assert Escape(s) + ("\"" + x) == "\"" + x;
      if t != "" {
        EscapeNeverClosesQuote(t, "\"" + y);
      }
      assert Escape(t) + ("\"" + y) == "\"" + y;
      Cancel("\"", x, y);
    } else if t == "" {
      assert (Escape(t) + ("\"" + y))[0] == '"';
      EscapeNeverClosesQuote(s, "\"" + x);
    } else {
      Regroup(EscapeChar(s[0]), Escape(s[1..]), "\"" + x);
      Regroup(EscapeChar(t[0]), Escape(t[1..]), "\"" + y);
      EscapedCharsArePrefixFree(s[0], Escape(s[1..]) + ("\"" + x), t[0], Escape(t[1..]) + ("\"" + y));
      EscapesArePrefixFree(s[1..], x, t[1..], y);
      assert s == [s[0]] + s[1..] && t == [t[0]] + t[1..];
    }
  }

  lemma {:induction false} QuotesArePrefixFree(s: string, x: string, t: string, y: string)
    requires PrintQuoted(s, x) == PrintQuoted(t, y)
    ensures s == t && x == y
  {
    Cancel("\"", Escape(s) + ("\"" + x), Escape(t) + ("\"" + y));
    EscapesArePrefixFree(s, x, t, y);
  }

  lemma {:induction false} NumberGoesOn(s: string, x: string, t: string, y: string)
    requires NumberText(t) && Stop(x) && s + x == t + y
    ensures |t| <= |s|
  {
    var i := if |s| < |t| then |s| else 0;
    assert (t + y)[i] == t[i];
    assert x != "" ==> (s + x)[|s|] == x[0];
  }

  lemma {:induction false} NumbersEndAtStops(s: string, x: string, t: string, y: string)
    requires NumberText(s) && NumberText(t) && Stop(x) && Stop(y) && s + x == t + y
    ensures s == t && x == y
  {
    NumberGoesOn(s, x, t, y);
    NumberGoesOn(t, y, s, x);
    assert s == (s + x)[..|s|] && t == (t + y)[..|t|];
    Cancel(s, x, y);
  }

  /** The first character tells what kind of value a text is. */
  predicate Opens(c: char, v: Json) {
    match v
    case Undefined => c == 'n'
    case Null => c == 'n'
    case Bool(b) => c == if b then 't' else 'f'
    case Num(_) => c in "+-.0123456789e"
    case Str(_) => c == '"'
    case Arr(_) => c == '['
    case Obj(_) => c == '{'
  }

  lemma {:induction false} FirstCharTellsKind(v: Json, x: string)
    requires Plain(v)
    ensures Print(v, x) != "" && Opens(Print(v, x)[0], v)
  {
  }

  lemma {:induction false} PrintIsPrefixFree(v: Json, x: string, w: Json, y: string)
    requires Plain(v) && Plain(w) && Stop(x) && Stop(y) && Print(v, x) == Print(w, y)
    ensures v == w && x == y
    decreases v, 0
  {
    FirstCharTellsKind(v, x);
    FirstCharTellsKind(w, y);
    match v
    case Arr(items) =>
      Cancel("[", PrintItems(items, "]" + x), PrintItems(w.items, "]" + y));
      ItemsArePrefixFree(items, x, w.items, y);
    case Obj(fields) =>
      Cancel("{", PrintFields(fields, "}" + x), PrintFields(w.fields, "}" + y));
      FieldsArePrefixFree(fields, x, w.fields, y);
    case _ => ScalarsArePrefixFree(v, x, w, y);
  }

  lemma {:induction false} ScalarsArePrefixFree(v: Json, x: string, w: Json, y: string)
    requires Plain(v) && Plain(w) && !v.Arr? && !v.Obj? && Stop(x) && Stop(y) && Print(v, x) == Print(w, y)
    ensures v == w && x == y
  {
    FirstCharTellsKind(v, x);
    FirstCharTellsKind(w, y);
    match v
    case Null => Cancel("null", x, y);
    case Bool(b) => Cancel(if b then "true" else "false", x, y);
    case Num(s) => NumbersEndAtStops(s, x, w.text, y);
    case Str(s) => QuotesArePrefixFree(s, x, w.s, y);
  }

  lemma {:induction false} MoreStops(items: seq<Json>, x: string)
    ensures Stop(PrintMore(items, "]" + x)) && (PrintMore(items, "]" + x)[0] == ']' <==> items == [])
  {
  }

  lemma {:induction false} MoreFieldsStop(fields: seq<Field>, x: string)
    ensures Stop(PrintMoreFields(fields, "}" + x)) && (PrintMoreFields(fields, "}" + x)[0] == '}' <==> fields == [])
  {
  }

  lemma {:induction false} ItemsArePrefixFree(vs: seq<Json>, x: string, ws: seq<Json>, y: string)
    requires (forall i :: 0 <= i < |vs| ==> Plain(vs[i])) && (forall i :: 0 <= i < |ws| ==> Plain(ws[i]))
    requires PrintItems(vs, "]" + x) == PrintItems(ws, "]" + y)
    ensures vs == ws && x == y
    decreases vs, 2
  {
    if vs != [] {
      FirstCharTellsKind(vs[0], PrintMore(vs[1..], "]" + x));
    }
    if ws != [] {
      FirstCharTellsKind(ws[0], PrintMore(ws[1..], "]" + y));
    }
    if vs == [] || ws == [] {
      assert ("]" + x)[0] == ']' && ("]" + y)[0] == ']';
      Cancel("]", x, y);
    } else {
      MoreStops(vs[1..], x);
      MoreStops(ws[1..], y);
      PrintIsPrefixFree(vs[0], PrintMore(vs[1..], "]" + x), ws[0], PrintMore(ws[1..], "]" + y));
      MoreIsPrefixFree(vs[1..], x, ws[1..], y);
      assert vs == [vs[0]] + vs[1..] && ws == [ws[0]] + ws[1..];
    }
  }

  lemma {:induction false} MoreIsPrefixFree(vs: seq<Json>, x: string, ws: seq<Json>, y: string)
    requires (forall i :: 0 <= i < |vs| ==> Plain(vs[i])) && (forall i :: 0 <= i < |ws| ==> Plain(ws[i]))
    requires PrintMore(vs, "]" + x) == PrintMore(ws, "]" + y)
    ensures vs == ws && x == y
    decreases vs, 1
  {
    MoreStops(vs, x);
    MoreStops(ws, y);
    if vs == [] {
      Cancel("]", x, y);
    } else {
      var a, b := PrintMore(vs[1..], "]" + x), PrintMore(ws[1..], "]" + y);
      Cancel(",", Print(vs[0], a), Print(ws[0], b));
      MoreStops(vs[1..], x);
      MoreStops(ws[1..], y);
      PrintIsPrefixFree(vs[0], a, ws[0], b);
      MoreIsPrefixFree(vs[1..], x, ws[1..], y);
      assert vs == [vs[0]] + vs[1..] && ws == [ws[0]] + ws[1..];
    }
  }

  lemma {:induction false} FieldIsPrefixFree(f: Field, x: string, g: Field, y: string)
    requires Plain(f.value) && Plain(g.value) && Stop(x) && Stop(y) && PrintField(f, x) == PrintField(g, y)
    ensures f == g && x == y
    decreases f, 0
  {
    QuotesArePrefixFree(f.name, ":" + Print(f.value, x), g.name, ":" + Print(g.value, y));
    Cancel(":", Print(f.value, x), Print(g.value, y));
    PrintIsPrefixFree(f.value, x, g.value, y);
  }

  lemma {:induction false} FieldsArePrefixFree(fs: seq<Field>, x: string, gs: seq<Field>, y: string)
    requires (forall i :: 0 <= i < |fs| ==> Plain(fs[i].value)) && (forall i :: 0 <= i < |gs| ==> Plain(gs[i].value))
    requires PrintFields(fs, "}" + x) == PrintFields(gs, "}" + y)
    ensures fs == gs && x == y
    decreases fs, 2
  {
    if fs == [] || gs == [] {
      assert ("}" + x)[0] == '}' && ("}" + y)[0] == '}';
      Cancel("}", x, y);
    } else {
      MoreFieldsStop(fs[1..], x);
      MoreFieldsStop(gs[1..], y);
      FieldIsPrefixFree(fs[0], PrintMoreFields(fs[1..], "}" + x), gs[0], PrintMoreFields(gs[1..], "}" + y));
      MoreFieldsArePrefixFree(fs[1..], x, gs[1..], y);
      assert fs == [fs[0]] + fs[1..] && gs == [gs[0]] + gs[1..];
    }
  }

  lemma {:induction false} MoreFieldsArePrefixFree(fs: seq<Field>, x: string, gs: seq<Field>, y: string)
    requires (forall i :: 0 <= i < |fs| ==> Plain(fs[i].value)) && (forall i :: 0 <= i < |gs| ==> Plain(gs[i].value))
    requires PrintMoreFields(fs, "}" + x) == PrintMoreFields(gs, "}" + y)
    ensures fs == gs && x == y
    decreases fs, 1
  {
    MoreFieldsStop(fs, x);
    MoreFieldsStop(gs, y);
    if fs == [] {
      Cancel("}", x, y);
    } else {
      var a, b := PrintMoreFields(fs[1..], "}" + x), PrintMoreFields(gs[1..], "}" + y);
      Cancel(",", PrintField(fs[0], a), PrintField(gs[0], b));
      MoreFieldsStop(fs[1..], x);
      MoreFieldsStop(gs[1..], y);
      FieldIsPrefixFree(fs[0], a, gs[0], b);
      MoreFieldsArePrefixFree(fs[1..], x, gs[1..], y);
      assert fs == [fs[0]] + fs[1..] && gs == [gs[0]] + gs[1..];
    }
  }

  // --------------------------------- one normal form for each distinct request

  predicate Ascending(fields: seq<Field>, less: (string, string) -> bool) {
    forall i, j :: 0 <= i < j < |fields| ==> less(fields[i].name, fields[j].name)
  }

  lemma {:induction false} InsertAscends(f: Field, sorted: seq<Field>, less: (string, string) -> bool)
    requires StrictTotalOrder(less) && Ascending(sorted, less) && forall g :: g in sorted ==> g.name != f.name
    ensures Ascending(Insert(f, sorted, less), less)
  {
    if sorted == [] || less(f.name, sorted[0].name) {
      forall i | 0 <= i < |sorted| ensures less(f.name, sorted[i].name) {
      }
    } else {
      assert sorted[0] in sorted;
      InsertAscends(f, sorted[1..], less);
      var r := Insert(f, sorted[1..], less);
      forall i | 0 <= i < |r| ensures less(sorted[0].name, r[i].name) {
        assert r[i] in r;
      }
    }
  }

  lemma {:induction false} SortAscends(fields: seq<Field>, less: (string, string) -> bool)
    requires StrictTotalOrder(less) && Distinct(fields)
    ensures Ascending(Sort(fields, less), less)
  {
    if fields != [] {
      SortAscends(fields[1..], less);
      InsertAscends(fields[0], Sort(fields[1..], less), less);
    }
  }

  lemma {:induction false} DefinedStaysDistinct(fields: seq<Field>)
    requires Distinct(fields)
    ensures Distinct(Defined(fields))
  {
    if fields != [] {
      DefinedStaysDistinct(fields[1..]);
      forall g | g in Defined(fields[1..]) ensures g.name != fields[0].name {
        assert g in fields[1..];
      }
    }
  }

  function Names(fields: seq<Field>): (names: seq<string>)
    ensures |names| == |fields| && forall i :: 0 <= i < |fields| ==> names[i] == fields[i].name
  {
    seq(|fields|, i requires 0 <= i < |fields| => fields[i].name)
  }

  predicate Increasing(names: seq<string>, less: (string, string) -> bool) {
    forall i, j :: 0 <= i < j < |names| ==> less(names[i], names[j])
  }

  lemma {:induction false} LeastIsFirst(a: seq<string>, b: seq<string>, less: (string, string) -> bool)
    requires StrictTotalOrder(less) && Increasing(a, less) && Increasing(b, less)
    requires a != [] && b != [] && a[0] in b && b[0] in a
    ensures a[0] == b[0]
  {
    var j :| 0 <= j < |b| && b[j] == a[0];
    var i :| 0 <= i < |a| && a[i] == b[0];
  }

  lemma {:induction false} SortedNamesAreUnique(a: seq<string>, b: seq<string>, less: (string, string) -> bool)
    requires StrictTotalOrder(less) && Increasing(a, less) && Increasing(b, less)
    requires forall n :: n in a <==> n in b
    ensures a == b
  {
    assert a != [] ==> a[0] in a;
    assert b != [] ==> b[0] in b;
    if a != [] {
      LeastIsFirst(a, b, less);
      forall n ensures n in a[1..] <==> n in b[1..] {
        TailMembers(a, n, less);
        TailMembers(b, n, less);
      }
      SortedNamesAreUnique(a[1..], b[1..], less);
      assert a == [a[0]] + a[1..] && b == [b[0]] + b[1..];
    }
  }

  lemma {:induction false} TailMembers(a: seq<string>, n: string, less: (string, string) -> bool)
    requires StrictTotalOrder(less) && Increasing(a, less) && a != []
    ensures n in a[1..] <==> n in a && n != a[0]
  {
    if n in a[1..] {
      var i :| 0 <= i < |a| - 1 && a[1..][i] == n;
      assert less(a[0], a[i + 1]);
    }
  }

  lemma {:induction false} NormalFormIsPlain(v: Json, less: (string, string) -> bool)
    requires Valid(v)
    ensures Plain(Normalise(v, less))
  {
    match v
    case Arr(items) =>
      forall i | 0 <= i < |items| ensures Plain(Normalise(items[i], less)) {
        NormalFormIsPlain(items[i], less);
      }
    case Obj(fields) =>
      var entries := Sort(Defined(fields), less);
      forall i | 0 <= i < |entries| ensures entries[i] in fields && Plain(Normalise(entries[i].value, less)) {
        assert entries[i] in fields;
        NormalFormIsPlain(entries[i].value, less);
      }
    case _ =>
  }

  lemma {:induction false} EqualNormalFormsAreTheSame(v: Json, w: Json, less: (string, string) -> bool)
    requires Normalise(v, less) == Normalise(w, less)
    ensures Same(v, w)
    decreases v
  {
    match (v, w)
    case (Arr(vs), Arr(ws)) =>
      forall i | 0 <= i < |vs| ensures Same(vs[i], ws[i]) {
        assert Normalise(v, less).items[i] == Normalise(w, less).items[i];
        EqualNormalFormsAreTheSame(vs[i], ws[i], less);
      }
    case (Obj(fs), Obj(gs)) => EqualNormalObjectsAreTheSame(fs, gs, less);
    case _ =>
  }

  lemma {:induction false} EqualNormalObjectsAreTheSame(fs: seq<Field>, gs: seq<Field>, less: (string, string) -> bool)
    requires Normalise(Obj(fs), less) == Normalise(Obj(gs), less)
    ensures Same(Obj(fs), Obj(gs))
    decreases fs, 1
  {
    var a, b := Sort(Defined(fs), less), Sort(Defined(gs), less);
    assert |a| == |Normalise(Obj(fs), less).fields| == |Normalise(Obj(gs), less).fields| == |b|;
    forall i | 0 <= i < |a| ensures MatchedIn(a[i], gs) && MatchedBy(fs, b[i]) {
      PlacesMatch(fs, gs, i, less);
    }
    PairsCover(fs, gs, a, b);
  }

  /** Fields in the same place of equal normal forms match. */
  lemma {:induction false} PlacesMatch(fs: seq<Field>, gs: seq<Field>, i: nat, less: (string, string) -> bool)
    requires Normalise(Obj(fs), less) == Normalise(Obj(gs), less)
    requires i < |Sort(Defined(fs), less)| && i < |Sort(Defined(gs), less)|
    ensures MatchedIn(Sort(Defined(fs), less)[i], gs) && MatchedBy(fs, Sort(Defined(gs), less)[i])
    decreases fs, 0
  {
    var f, g := Sort(Defined(fs), less)[i], Sort(Defined(gs), less)[i];
    assert f in Defined(fs) && g in Defined(gs);
    assert f in fs;
    assert Field(f.name, Normalise(f.value, less)) == Normalise(Obj(fs), less).fields[i];
    assert Field(g.name, Normalise(g.value, less)) == Normalise(Obj(gs), less).fields[i];
    EqualNormalFormsAreTheSame(f.value, g.value, less);
  }

  lemma {:induction false} PairsCover(fs: seq<Field>, gs: seq<Field>, a: seq<Field>, b: seq<Field>)
    requires |a| == |b| && forall i :: 0 <= i < |a| ==> MatchedIn(a[i], gs) && MatchedBy(fs, b[i])
    requires forall f :: f in Defined(fs) ==> f in a
    requires forall g :: g in Defined(gs) ==> g in b
    ensures Same(Obj(fs), Obj(gs))
  {
    forall f | f in fs && !f.value.Undefined? ensures MatchedIn(f, gs) {
      assert f in Defined(fs);
      var i :| 0 <= i < |a| && a[i] == f;
    }
    forall g | g in gs && !g.value.Undefined? ensures MatchedBy(fs, g) {
      assert g in Defined(gs);
      var i :| 0 <= i < |b| && b[i] == g;
    }
  }

  lemma {:induction false} SameMeansEqualNormalForms(v: Json, w: Json, less: (string, string) -> bool)
    requires StrictTotalOrder(less) && Valid(v) && Valid(w) && Same(v, w)
    ensures Normalise(v, less) == Normalise(w, less)
    decreases v
  {
    match (v, w)
    case (Arr(vs), Arr(ws)) =>
      forall i | 0 <= i < |vs| ensures Normalise(vs[i], less) == Normalise(ws[i], less) {
        SameMeansEqualNormalForms(vs[i], ws[i], less);
      }
    case (Obj(fs), Obj(gs)) => SameObjectsHaveEqualNormalForms(fs, gs, less);
    case _ =>
  }

  lemma {:induction false} SameObjectsHaveEqualNormalForms(fs: seq<Field>, gs: seq<Field>,
                                                           less: (string, string) -> bool)
    requires StrictTotalOrder(less) && Valid(Obj(fs)) && Valid(Obj(gs)) && Same(Obj(fs), Obj(gs))
    ensures Normalise(Obj(fs), less) == Normalise(Obj(gs), less)
    decreases fs
  {
    var a, b := Sort(Defined(fs), less), Sort(Defined(gs), less);
    DefinedStaysDistinct(fs);
    DefinedStaysDistinct(gs);
    SortedFieldsMatch(fs, gs, less);
    var x, y := Normalise(Obj(fs), less).fields, Normalise(Obj(gs), less).fields;
    forall i | 0 <= i < |a| ensures x[i] == y[i] {
      assert a[i] in Defined(fs) && b[i] in Defined(gs);
      assert a[i] in fs && b[i] in gs;
      assert Valid(a[i].value) && Valid(b[i].value);
      SameMeansEqualNormalForms(a[i].value, b[i].value, less);
    }
    assert x == y;
  }

  lemma {:induction false} NamesIn(fields: seq<Field>, less: (string, string) -> bool, n: string)
    ensures n in Names(Sort(Defined(fields), less)) <==> exists f :: f in fields && !f.value.Undefined? && f.name == n
  {
    var a := Sort(Defined(fields), less);
    if n in Names(a) {
      var i :| 0 <= i < |a| && Names(a)[i] == n;
      assert a[i] in Defined(fields);
    }
    if f :| f in fields && !f.value.Undefined? && f.name == n {
      assert f in Defined(fields);
      var i :| 0 <= i < |a| && a[i] == f;
      assert Names(a)[i] == n;
    }
  }

  lemma {:induction false} SortedFieldsMatch(fs: seq<Field>, gs: seq<Field>, less: (string, string) -> bool)
    requires StrictTotalOrder(less) && Distinct(Defined(fs)) && Distinct(Defined(gs)) && Same(Obj(fs), Obj(gs))
    ensures var a, b := Sort(Defined(fs), less), Sort(Defined(gs), less);
      |a| == |b| && forall i :: 0 <= i < |a| ==> a[i].name == b[i].name && Same(a[i].value, b[i].value)
  {
    var a, b := Sort(Defined(fs), less), Sort(Defined(gs), less);
    SortAscends(Defined(fs), less);
    SortAscends(Defined(gs), less);
    forall n ensures n in Names(a) <==> n in Names(b) {
      SameNames(fs, gs, less, n);
    }
    SortedNamesAreUnique(Names(a), Names(b), less);
    forall i | 0 <= i < |a| ensures a[i].name == b[i].name && Same(a[i].value, b[i].value) {
      assert a[i].name == Names(a)[i] == Names(b)[i] == b[i].name;
      assert a[i] in Defined(fs);
      assert MatchedIn(a[i], gs);
      MatchIsInPlace(a[i], gs, b, i, less);
    }
  }

  lemma {:induction false} SameNames(fs: seq<Field>, gs: seq<Field>, less: (string, string) -> bool, n: string)
    requires Same(Obj(fs), Obj(gs))
    ensures n in Names(Sort(Defined(fs), less)) <==> n in Names(Sort(Defined(gs), less))
  {
    NamesIn(fs, less, n);
    NamesIn(gs, less, n);
    if f :| f in fs && !f.value.Undefined? && f.name == n {
      assert MatchedIn(f, gs);
    }
    if g :| g in gs && !g.value.Undefined? && g.name == n {
      assert MatchedBy(fs, g);
    }
  }

  lemma {:induction false} MatchIsInPlace(f: Field, gs: seq<Field>, b: seq<Field>, i: nat,
                                          less: (string, string) -> bool)
    requires StrictTotalOrder(less) && b == Sort(Defined(gs), less) && Ascending(b, less)
    requires i < |b| && b[i].name == f.name && MatchedIn(f, gs)
    ensures Same(f.value, b[i].value)
  {
    var g :| g in gs && !g.value.Undefined? && g.name == f.name && Same(f.value, g.value);
    assert g in Defined(gs);
    var j :| 0 <= j < |b| && b[j] == g;
    AscendingNamesDiffer(b, i, j, less);
  }

  lemma {:induction false} AscendingNamesDiffer(fields: seq<Field>, i: nat, j: nat, less: (string, string) -> bool)
    requires StrictTotalOrder(less) && Ascending(fields, less) && i < |fields| && j < |fields|
    requires fields[i].name == fields[j].name
    ensures i == j
  {
  }

  // ---------------------------------------------------------------- theorems

  /** Two requests have the same text exactly when they say the same thing. */
  lemma {:induction false} OneTextPerRequest(v: Json, w: Json, less: (string, string) -> bool)
    requires StrictTotalOrder(less) && Valid(v) && Valid(w)
    ensures Canonicalise(v, less) == Canonicalise(w, less) <==> Same(v, w)
  {
    CanonicalisePrintsNormalForm(v, less);
    CanonicalisePrintsNormalForm(w, less);
    NormalFormIsPlain(v, less);
    NormalFormIsPlain(w, less);
    if Canonicalise(v, less) == Canonicalise(w, less) {
      assert Canonicalise(v, less) + "" == Print(Normalise(v, less), "");
      assert Canonicalise(w, less) + "" == Print(Normalise(w, less), "");
      PrintIsPrefixFree(Normalise(v, less), "", Normalise(w, less), "");
      EqualNormalFormsAreTheSame(v, w, less);
    }
    if Same(v, w) {
      SameMeansEqualNormalForms(v, w, less);
      assert Canonicalise(v, less) + "" == Canonicalise(v, less) && Canonicalise(w, less) + "" == Canonicalise(w, less);
    }
  }

  lemma {:induction false} SameIsReflexive(v: Json)
    ensures Same(v, v)
  {
    match v
    case Arr(items) =>
      forall i | 0 <= i < |items| ensures Same(items[i], items[i]) {
        SameIsReflexive(items[i]);
      }
    case Obj(fields) =>
      forall f | f in fields && !f.value.Undefined? ensures MatchedIn(f, fields) && MatchedBy(fields, f) {
        SameIsReflexive(f.value);
      }
    case _ =>
  }

  /** Neither reordering the fields of an object nor adding undefined ones changes its text. */
  lemma {:induction false} FieldOrderIsIrrelevant(fs: seq<Field>, gs: seq<Field>, less: (string, string) -> bool)
    requires StrictTotalOrder(less) && Valid(Obj(fs)) && Valid(Obj(gs))
    requires multiset(Defined(fs)) == multiset(Defined(gs))
    ensures Canonicalise(Obj(fs), less) == Canonicalise(Obj(gs), less)
  {
    forall f ensures f in Defined(fs) <==> f in Defined(gs) {
      assert f in Defined(fs) <==> f in multiset(Defined(fs));
      assert f in Defined(gs) <==> f in multiset(Defined(gs));
    }
    forall f | f in Defined(fs) ensures MatchedIn(f, gs) && MatchedBy(fs, f) {
      SameIsReflexive(f.value);
    }
    assert Same(Obj(fs), Obj(gs));
    OneTextPerRequest(Obj(fs), Obj(gs), less);
  }
}
