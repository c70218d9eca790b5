/**
 * The persistence adapter: the text written to the `carrinho` slot of the
 * browser's local storage (`JSON.stringify` of the cart) and the parser that
 * reads it back (`JSON.parse`). The writer emits one canonical text per cart;
 * the parser accepts exactly those texts, and the two are proved inverse in
 * both directions.
 */
module Persistence {
  import opened Wrappers
  import opened Cart

  // ---------------------------------------------------------------- strings

  /** The characters that need a backslash inside a string literal. */
  predicate NeedsEscape(c: char)
  {
    c == '"' || c == '\\'
  }

  /** The body of a string literal: `"` and `\` are written with a leading backslash. */
  function Escape(s: string): string
  {
    if s == [] then []
    else (if NeedsEscape(s[0]) then ['\\', s[0]] else [s[0]]) + Escape(s[1..])
  }

  /**
   * Reads a string-literal body up to and including its closing quote;
   * gives the decoded text and what follows the quote.
   */
  function ParseStringBody(s: string): (r: Option<(string, string)>)
    ensures r.Some? ==> |r.value.1| < |s|
  {
    if s == [] then None
    else if s[0] == '"' then Some(([], s[1..]))
    else if s[0] == '\\' then
      if |s| >= 2 && NeedsEscape(s[1]) then
        var tail :- ParseStringBody(s[2..]);
        Some(([s[1]] + tail.0, tail.1))
      else None
    else
      var tail :- ParseStringBody(s[1..]);
      Some(([s[0]] + tail.0, tail.1))
  }

  /** Reading back an escaped text and its closing quote gives the text and leaves what follows. */
  lemma {:induction false} StringRoundTrip(v: string, rest: string)
    ensures ParseStringBody(Escape(v) + ("\"" + rest)) == Some((v, rest))
  {
    if v != [] {
      var head := if NeedsEscape(v[0]) then ['\\', v[0]] else [v[0]];
      var s, t := Escape(v) + ("\"" + rest), Escape(v[1..]) + ("\"" + rest);
      assert s == head + t;
      StringRoundTrip(v[1..], rest);
      assert [v[0]] + v[1..] == v;
      if NeedsEscape(v[0]) {
        assert s[0] == '\\' && s[1] == v[0] && s[2..] == t;
      } else {
        assert s[0] == v[0] && s[1..] == t;
      }
    } else {
      assert Escape(v) + ("\"" + rest) == "\"" + rest;
    }
  }

  /** Whatever the string parser accepts is an escaped text, its closing quote, and the rest. */
  lemma {:induction false} StringCanonical(s: string)
    requires ParseStringBody(s).Some?
    ensures s == Escape(ParseStringBody(s).value.0) + ("\"" + ParseStringBody(s).value.1)
  {
    var v := ParseStringBody(s).value.0;
    if s[0] == '"' {
      assert v == [];
    } else if s[0] == '\\' {
      StringCanonical(s[2..]);
      assert s == [s[0], s[1]] + s[2..];
    } else {
      StringCanonical(s[1..]);
      assert s == [s[0]] + s[1..];
    }
  }

  // --------------------------------------------------------------- integers

  predicate IsDigit(c: char)
  {
    '0' <= c <= '9'
  }

  predicate AllDigits(s: string)
  {
    forall k :: 0 <= k < |s| ==> IsDigit(s[k])
  }

  /** A decimal numeral as the writer emits it: digits only, and no leading zero unless it is `0` itself. */
  predicate Canonical(ds: string)
  {
    |ds| >= 1 && AllDigits(ds) && (ds[0] == '0' ==> |ds| == 1)
  }

  function DigitChar(d: nat): (c: char)
    requires d < 10
    ensures IsDigit(c)
  {
    ('0' as int + d) as char
  }

  function DigitOf(c: char): (d: nat)
    requires IsDigit(c)
    ensures d < 10 && DigitChar(d) == c
    ensures d == 0 <==> c == '0'
  {
    c as int - '0' as int
  }

  /** The decimal numeral of `n`, most significant digit first. */
  function NatDigits(n: nat): (ds: string)
    ensures Canonical(ds)
    ensures n > 0 ==> ds[0] != '0'
  {
    if n < 10 then [DigitChar(n)] else NatDigits(n / 10) + [DigitChar(n % 10)]
  }

  /** The value of a string of decimal digits. */
  function DigitsValue(ds: string): nat
    requires AllDigits(ds)
  {
    if ds == [] then 0 else DigitsValue(ds[..|ds| - 1]) * 10 + DigitOf(ds[|ds| - 1])
  }

  /** How a price is written: an optional minus sign and the numeral of its magnitude. */
  function EncodeInt(i: int): string
  {
    if i < 0 then "-" + NatDigits(-i) else NatDigits(i)
  }

  /** The length of the run of digits at the start of `s`. */
  function DigitRun(s: string): (k: nat)
    ensures k <= |s| && AllDigits(s[..k])
    ensures k < |s| ==> !IsDigit(s[k])
  {
    if s == [] || !IsDigit(s[0]) then 0
    else
      var k' := DigitRun(s[1..]);
      assert s[..k' + 1] == [s[0]] + s[1..][..k'];
      1 + k'
  }

  /** Reads a canonical numeral off the front of `s`, rejecting leading zeros. */
  function ParseNat(s: string): (r: Option<(nat, string)>)
    ensures r.Some? ==> |r.value.1| < |s|
  {
    var k := DigitRun(s);
    if k == 0 || (s[0] == '0' && k > 1) then None
    else Some((DigitsValue(s[..k]), s[k..]))
  }

  /** Reads an integer off the front of `s`: `-` and a non-zero numeral, or a numeral. */
  function ParseInt(s: string): (r: Option<(int, string)>)
    ensures r.Some? ==> |r.value.1| < |s|
  {
    if s != [] && s[0] == '-' then
      var p :- ParseNat(s[1..]);
      if p.0 == 0 then None else Some((-(p.0 as int), p.1))
    else
      var p :- ParseNat(s);
      Some((p.0 as int, p.1))
  }

  /** The numeral of `n` has value `n`. */
  lemma {:induction false} NatDigitsValue(n: nat)
    ensures DigitsValue(NatDigits(n)) == n
  {
    if n >= 10 {
      var ds := NatDigits(n);
      assert ds[..|ds| - 1] == NatDigits(n / 10);
      NatDigitsValue(n / 10);
    }
  }

  /** A numeral that does not start with `0` has a positive value. */
  lemma {:induction false} LeadingDigitPositive(ds: string)
    requires |ds| >= 1 && AllDigits(ds) && ds[0] != '0'
    ensures DigitsValue(ds) >= 1
  {
    if |ds| > 1 {
      LeadingDigitPositive(ds[..|ds| - 1]);
    }
  }

  /** A canonical numeral is the numeral of its own value. */
  lemma {:induction false} CanonicalDigits(ds: string)
    requires Canonical(ds)
    ensures NatDigits(DigitsValue(ds)) == ds
  {
    var init := ds[..|ds| - 1];
    var d := DigitOf(ds[|ds| - 1]);
    if init != [] {
      LeadingDigitPositive(init);
      CanonicalDigits(init);
      var v := DigitsValue(ds);
      assert v / 10 == DigitsValue(init) && v % 10 == d;
      assert ds == init + [ds[|ds| - 1]];
    } else {
      assert ds == [ds[0]];
    }
  }

  /** A run of digits followed by a non-digit (or nothing) is read as exactly that run. */
  lemma {:induction false} DigitRunOf(ds: string, rest: string)
    requires AllDigits(ds)
    requires rest == [] || !IsDigit(rest[0])
    ensures DigitRun(ds + rest) == |ds|
  {
    if ds != [] {
      assert (ds + rest)[1..] == ds[1..] + rest;
      DigitRunOf(ds[1..], rest);
    }
  }

  /** Reading back a written integer, when a non-digit follows, gives the integer and leaves what follows. */
  lemma IntRoundTrip(i: int, rest: string)
    requires rest == [] || !IsDigit(rest[0])
    ensures ParseInt(EncodeInt(i) + rest) == Some((i, rest))
  {
    var n: nat := if i < 0 then -i else i;
    var ds := NatDigits(n);
    DigitRunOf(ds, rest);
    NatDigitsValue(n);
    assert (ds + rest)[..|ds|] == ds && (ds + rest)[|ds|..] == rest;
    if i < 0 {
      assert ("-" + ds + rest)[1..] == ds + rest;
    }
  }

  /** Whatever the numeral parser accepts is a written numeral followed by a non-digit or nothing. */
  lemma {:induction false} NatCanonical(t: string)
    requires ParseNat(t).Some?
    ensures t == NatDigits(ParseNat(t).value.0) + ParseNat(t).value.1
    ensures ParseNat(t).value.1 == [] || !IsDigit(ParseNat(t).value.1[0])
  {
    var k := DigitRun(t);
    CanonicalDigits(t[..k]);
    assert t == t[..k] + t[k..];
  }

  /** Whatever the integer parser accepts is a written integer followed by a non-digit or nothing. */
  lemma {:induction false} IntCanonical(s: string)
    requires ParseInt(s).Some?
    ensures s == EncodeInt(ParseInt(s).value.0) + ParseInt(s).value.1
    ensures ParseInt(s).value.1 == [] || !IsDigit(ParseInt(s).value.1[0])
  {
    if s[0] == '-' {
      NatCanonical(s[1..]);
      assert s == "-" + s[1..];
    } else {
      NatCanonical(s);
    }
  }

  // ------------------------------------------------------------ line items

  /** The fixed text around the three fields of a written line item. */
  const ItemOpen: string := "{\"id\":\""
  const NomeKey: string := ",\"nome\":\""
  const PrecoKey: string := ",\"preco\":"
  const ItemClose: string := "}"

  /** `lit` at the front of `s`: what follows it, or nothing when `s` does not start with it. */
  function Expect(lit: string, s: string): (r: Option<string>)
    ensures r.Some? <==> |lit| <= |s| && s[..|lit|] == lit
    ensures r.Some? ==> s == lit + r.value
  {
    if |lit| <= |s| && s[..|lit|] == lit then Some(s[|lit|..]) else None
  }

  /** `JSON.stringify({ id, nome, preco })` of one line item. */
  function EncodeItem(item: LineItem): string
  {
    ItemOpen + Escape(item.id) + "\"" + NomeKey + Escape(item.nome) + "\"" + PrecoKey + EncodeInt(item.preco) + ItemClose
  }

  /** Reads one written line item off the front of `s`. */
  function ParseItem(s: string): (r: Option<(LineItem, string)>)
    ensures r.Some? ==> |r.value.1| < |s|
  {
    var a :- Expect(ItemOpen, s);
    var id :- ParseStringBody(a);
    var b :- Expect(NomeKey, id.1);
    var nome :- ParseStringBody(b);
    var c :- Expect(PrecoKey, nome.1);
    var preco :- ParseInt(c);
    var d :- Expect(ItemClose, preco.1);
    Some((LineItem(id.0, nome.0, preco.0), d))
  }

  /** A written line item followed by `rest`, with the concatenation nested to the right. */
  lemma ItemText(item: LineItem, rest: string)
    ensures EncodeItem(item) + rest
         == ItemOpen + (Escape(item.id) + ("\"" + (NomeKey + (Escape(item.nome) + ("\"" + (PrecoKey + (EncodeInt(item.preco) + (ItemClose + rest))))))))
  {
  }

  /** Reading back a written line item gives the item and leaves what follows. */
  lemma ItemRoundTrip(item: LineItem, rest: string)
    ensures ParseItem(EncodeItem(item) + rest) == Some((item, rest))
  {
    var s4 := ItemClose + rest;
    var s3 := PrecoKey + (EncodeInt(item.preco) + s4);
    var s2 := NomeKey + (Escape(item.nome) + ("\"" + s3));
    var s1 := Escape(item.id) + ("\"" + s2);
    ItemText(item, rest);
    StringRoundTrip(item.id, s2);
    StringRoundTrip(item.nome, s3);
    IntRoundTrip(item.preco, s4);
  }

  /** Whatever the item parser accepts is a written line item followed by the rest. */
  lemma {:induction false} ItemCanonical(s: string)
    requires ParseItem(s).Some?
    ensures s == EncodeItem(ParseItem(s).value.0) + ParseItem(s).value.1
  {
    var a := Expect(ItemOpen, s).value;
    StringCanonical(a);
    var id := ParseStringBody(a).value;
    var b := Expect(NomeKey, id.1).value;
    StringCanonical(b);
    var nome := ParseStringBody(b).value;
    var c := Expect(PrecoKey, nome.1).value;
    IntCanonical(c);
    var preco := ParseInt(c).value;
    var d := Expect(ItemClose, preco.1).value;
    ItemText(LineItem(id.0, nome.0, preco.0), d);
  }

  // ------------------------------------------------------------------ carts

  /** The written items after the first, each led by a comma, and the closing bracket. */
  function EncodeMore(cart: seq<LineItem>): string
  {
    if cart == [] then "]" else "," + (EncodeItem(cart[0]) + EncodeMore(cart[1..]))
  }

  /** `JSON.stringify(carrinho)`: a bracketed, comma-separated list of written line items. */
  function Serialize(cart: seq<LineItem>): (text: string)
    ensures |text| >= 2 && text[0] == '['
  {
    "[" + (if cart == [] then "]" else EncodeItem(cart[0]) + EncodeMore(cart[1..]))
  }

  /** Reads the items after the first up to the closing bracket, which must end the text. */
  function ParseMore(s: string): Option<seq<LineItem>>
    decreases |s|
  {
    if s == "]" then Some([])
    else if s != [] && s[0] == ',' then
      var first :- ParseItem(s[1..]);
      var more :- ParseMore(first.1);
      Some([first.0] + more)
    else None
  }

  /** `JSON.parse` of a stored cart: nothing when the text is not a written cart. */
  function Deserialize(s: string): (r: Option<seq<LineItem>>)
    ensures r.Some? ==> s != [] && s[0] == '['
    ensures s == "[]" ==> r == Some([])
  {
    var body :- Expect("[", s);
    if body == "]" then Some([])
    else
      var first :- ParseItem(body);
      var more :- ParseMore(first.1);
      Some([first.0] + more)
  }

  lemma {:induction false} MoreRoundTrip(cart: seq<LineItem>)
    ensures ParseMore(EncodeMore(cart)) == Some(cart)
    decreases |cart|
  {
    if cart != [] {
      var s, tail := EncodeMore(cart), EncodeMore(cart[1..]);
      assert s[0] == ',' && s != "]";
      assert s[1..] == EncodeItem(cart[0]) + tail;
      ItemRoundTrip(cart[0], tail);
      MoreRoundTrip(cart[1..]);
      assert [cart[0]] + cart[1..] == cart;
    }
  }

  /** Restoring a saved cart gives back the same cart, item for item and in order. */
  lemma {:induction false} SerializeRoundTrip(cart: seq<LineItem>)
    ensures Deserialize(Serialize(cart)) == Some(cart)
  {
    if cart != [] {
      var tail := EncodeMore(cart[1..]);
      ItemRoundTrip(cart[0], tail);
      MoreRoundTrip(cart[1..]);
      assert [cart[0]] + cart[1..] == cart;
    }
  }

  lemma {:induction false} MoreCanonical(s: string)
    requires ParseMore(s).Some?
    ensures EncodeMore(ParseMore(s).value) == s
    decreases |s|
  {
    if s != "]" {
      var first := ParseItem(s[1..]).value;
      ItemCanonical(s[1..]);
      MoreCanonical(first.1);
      var cart := [first.0] + ParseMore(first.1).value;
      assert ParseMore(s) == Some(cart);
      assert cart[0] == first.0 && cart[1..] == ParseMore(first.1).value;
      assert s == [s[0]] + s[1..];
    }
  }

  /**
   * A text that restores at all is exactly the text written for the cart it
   * restores, so saving the restored cart writes the same text back.
   */
  lemma {:induction false} DeserializeCanonical(s: string)
    requires Deserialize(s).Some?
    ensures Serialize(Deserialize(s).value) == s
  {
    var body := Expect("[", s).value;
    if body != "]" {
      var first := ParseItem(body).value;
      ItemCanonical(body);
      MoreCanonical(first.1);
      var cart := [first.0] + ParseMore(first.1).value;
      assert cart[0] == first.0 && cart[1..] == ParseMore(first.1).value;
    }
  }
}
