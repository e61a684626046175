/**
  Values produced by the browser's JSON parser, as the page script sees them,
  together with the two ways the script turns such a value into text:
  JavaScript's ToString (used by `JSON.parse` on a non-string argument and by
  `new Error(x)`) and the `textContent` setter (used for every table cell).
  Numbers are modelled as integers only.
*/
module Json {
  import opened Wrappers

  datatype J =
    | JNull
    | JBool(b: bool)
    | JNum(n: int)
    | JStr(s: string)
    | JArr(items: seq<J>)
    | JObj(fields: seq<(string, J)>)

  /** The outcome of a foreign JSON parse: a value, or the parser's error message. */
  datatype Parsed = Malformed(reason: string) | Value(value: J)

  /** Property read `v[key]`: only objects have the properties the script reads;
      for a key given twice the parser keeps the last occurrence. */
  function Get(v: J, key: string): (r: Option<J>)
    ensures r.Some? ==> v.JObj?
    ensures r.Some? ==>
              exists i :: 0 <= i < |v.fields| && v.fields[i] == (key, r.value) &&
                          forall j :: i < j < |v.fields| ==> v.fields[j].0 != key
    ensures r.None? ==> !v.JObj? || forall i :: 0 <= i < |v.fields| ==> v.fields[i].0 != key
  {
    if !v.JObj? then None else LastValue(v.fields, key)
  }

  function LastValue(fields: seq<(string, J)>, key: string): (r: Option<J>)
    ensures r.Some? ==>
              exists i :: 0 <= i < |fields| && fields[i] == (key, r.value) &&
                          forall j :: i < j < |fields| ==> fields[j].0 != key
    ensures r.None? ==> forall i :: 0 <= i < |fields| ==> fields[i].0 != key
  {
    if |fields| == 0 then None
    else if fields[|fields| - 1].0 == key then Some(fields[|fields| - 1].1)
    else LastValue(fields[..|fields| - 1], key)
  }

  /** JavaScript truthiness: null, false, 0 and "" are the falsy values a parsed
      JSON document can hold. */
  function Truthy(v: J): (b: bool)
    ensures !b <==> v in [JNull, JBool(false), JNum(0), JStr("")]
  {
    match v
    case JNull => false
    case JBool(b) => b
    case JNum(n) => n != 0
    case JStr(s) => s != ""
    case _ => true
  }

  function DigitChar(d: nat): (c: char)
    requires d < 10
    ensures '0' <= c <= '9'
  {
    "0123456789"[d]
  }

  /** Decimal numeral of a natural number, as `String(n)` writes it. */
  function NatToDecimal(n: nat): (s: string)
    ensures |s| >= 1
    ensures forall i :: 0 <= i < |s| ==> '0' <= s[i] <= '9'
    ensures |s| > 1 ==> s[0] != '0'
  {
    if n < 10 then [DigitChar(n)] else NatToDecimal(n / 10) + [DigitChar(n % 10)]
  }

  /** The value a decimal numeral denotes: the inverse of NatToDecimal. */
  function DecimalValue(s: string): int
  {
    if |s| == 0 then 0
    else DecimalValue(s[..|s| - 1]) * 10 + (s[|s| - 1] as int - '0' as int)
  }

  lemma {:induction false} DecimalRoundTrip(n: nat)
    ensures DecimalValue(NatToDecimal(n)) == n
  {
    if n >= 10 {
      var q, d := n / 10, n % 10;
      var s := NatToDecimal(n);
      assert s == NatToDecimal(q) + [DigitChar(d)];
      assert s[..|s| - 1] == NatToDecimal(q);
      assert s[|s| - 1] as int - '0' as int == d;
      DecimalRoundTrip(q);
      assert DecimalValue(s) == q * 10 + d;
    }
  }

  /** The digits of a canonical numeral: at least one, and no leading zero. */
  predicate CanonicalNumeral(s: string) {
    |s| >= 1 && (forall i :: 0 <= i < |s| ==> '0' <= s[i] <= '9') && (|s| > 1 ==> s[0] != '0')
  }

  lemma DigitCharOf(c: char)
    requires '0' <= c <= '9'
    ensures DigitChar(c as int - '0' as int) == c
  {
  }

  /** A canonical numeral with a non-zero first digit denotes a positive number. */
  lemma {:induction false} LeadingDigitPositive(s: string)
    requires |s| >= 1 && (forall i :: 0 <= i < |s| ==> '0' <= s[i] <= '9') && s[0] != '0'
    ensures DecimalValue(s) >= 1
  {
    if |s| > 1 {
      var init := s[..|s| - 1];
      assert init[0] == s[0];
      LeadingDigitPositive(init);
    }
  }

  /** The other direction of the round trip: a canonical numeral is the one
      NatToDecimal writes for its value, so no other text denotes that number. */
  lemma {:induction false} CanonicalRoundTrip(s: string)
    requires CanonicalNumeral(s)
    ensures DecimalValue(s) >= 0 && NatToDecimal(DecimalValue(s)) == s
  {
    var d := s[|s| - 1] as int - '0' as int;
    DigitCharOf(s[|s| - 1]);
    if |s| == 1 {
      assert DecimalValue(s) == DecimalValue([]) * 10 + d;
      assert s == [DigitChar(d)];
    } else {
      var init := s[..|s| - 1];
      assert init[0] == s[0];
      LeadingDigitPositive(init);
      CanonicalRoundTrip(init);
      var q := DecimalValue(init);
      var n := q * 10 + d;
      assert DecimalValue(s) == n;
      assert n / 10 == q && n % 10 == d;
      assert NatToDecimal(n) == NatToDecimal(q) + [DigitChar(d)];
      assert s == init + [s[|s| - 1]];
    }
  }

  /** `String(n)` for an integer: an optional minus sign, then the canonical
      numeral of the magnitude. */
  function IntToDecimal(n: int): (s: string)
    ensures n >= 0 ==> CanonicalNumeral(s) && DecimalValue(s) == n
    ensures n < 0 ==> |s| > 1 && s[0] == '-' && CanonicalNumeral(s[1..]) && DecimalValue(s[1..]) == -n
  {
    DecimalRoundTrip(if n < 0 then -n else n);
    if n < 0 then
      assert ("-" + NatToDecimal(-n))[1..] == NatToDecimal(-n);
      "-" + NatToDecimal(-n)
    else NatToDecimal(n)
  }

  /** JavaScript's ToString on a parsed value. Inside an array, null becomes the
      empty string (Array.prototype.join). */
  function JsToString(v: J): (t: string)
    ensures v.JNull? ==> t == "null"
    ensures v.JBool? ==> t == (if v.b then "true" else "false")
    ensures v.JNum? && v.n >= 0 ==> CanonicalNumeral(t) && DecimalValue(t) == v.n
    ensures v.JNum? && v.n < 0 ==> |t| > 1 && t[0] == '-' && CanonicalNumeral(t[1..]) && DecimalValue(t[1..]) == -v.n
    ensures v.JStr? ==> t == v.s
    ensures v.JArr? && |v.items| == 0 ==> t == ""
    ensures v.JArr? && |v.items| == 1 ==> t == CellText(v.items[0])
    ensures v.JObj? ==> t == "[object Object]"
    decreases v, 1
  {
    match v
    case JNull => "null"
    case JBool(b) => if b then "true" else "false"
    case JNum(n) => IntToDecimal(n)
    case JStr(s) => s
    case JArr(items) => Join(items)
    case JObj(_) => "[object Object]"
  }

  /** `items.join(",")`. */
  function Join(items: seq<J>): (t: string)
    ensures |items| == 0 ==> t == ""
    ensures |items| == 1 ==> t == CellText(items[0])
    decreases items, 0
  {
    if |items| == 0 then ""
    else if |items| == 1 then CellText(items[0])
    else Join(items[..|items| - 1]) + "," + CellText(items[|items| - 1])
  }

  /** Joining reads from the front as well: the first cell, a comma, then the
      rest joined. */
  lemma {:induction false} JoinFront(items: seq<J>)
    requires |items| > 1
    ensures Join(items) == CellText(items[0]) + "," + Join(items[1..])
  {
    var n := |items|;
    var init, rest := items[..n - 1], items[1..];
    assert rest[..n - 2] == init[1..];
    assert rest[n - 2] == items[n - 1];
    if n > 2 {
      assert init[0] == items[0];
      JoinFront(init);
    } else {
      assert init == [items[0]];
    }
  }

  /** Joining a concatenation joins the two parts with one comma between them. */
  lemma {:induction false} JoinAppend(a: seq<J>, b: seq<J>)
    requires |a| > 0 && |b| > 0
    ensures Join(a + b) == Join(a) + "," + Join(b)
    decreases |a|
  {
    var ab := a + b;
    JoinFront(ab);
    assert ab[0] == a[0];
    if |a| == 1 {
      assert ab[1..] == b;
    } else {
      var rest := a[1..];
      assert ab[1..] == rest + b;
      JoinAppend(rest, b);
      JoinFront(a);
      var head := CellText(a[0]);
      assert Join(ab) == head + "," + (Join(rest) + "," + Join(b));
      assert Join(a) == head + "," + Join(rest);
    }
  }

  /** The text a DOM node shows after `node.textContent = v`: null reads as
      the empty string, everything else goes through ToString. */
  function CellText(v: J): (t: string)
    ensures v.JNull? ==> t == ""
    ensures !v.JNull? ==> t == JsToString(v)
    decreases v, 2
  {
    if v.JNull? then "" else JsToString(v)
  }
}
