// src/services/labelPrinter.ts: the text slots of a Wix shipping label and the HTML
// escaping applied to them. Opening the print window and the fixed page template are
// not part of this model.
module LabelPrinter {
  import opened Wrappers
  import opened Text
  import opened OrderModel

  // ----- escapeHtml -----

  /** `s.replace(/c/g, r)` for a single character `c`. */
  function ReplaceAll(s: string, c: char, r: string): string
    decreases |s|
  {
    if s == [] then [] else (if s[0] == c then r else [s[0]]) + ReplaceAll(s[1..], c, r)
  }

  lemma {:induction false} ReplaceAllAppend(a: string, b: string, c: char, r: string)
    ensures ReplaceAll(a + b, c, r) == ReplaceAll(a, c, r) + ReplaceAll(b, c, r)
    decreases |a|
  {
    if a != [] {
      assert (a + b)[0] == a[0];
      assert (a + b)[1..] == a[1..] + b;
      ReplaceAllAppend(a[1..], b, c, r);
    } else {
      assert a + b == b;
    }
  }

  /** A text without `c` is left as it is. */
  lemma {:induction false} ReplaceAllAbsent(s: string, c: char, r: string)
    requires c !in s
    ensures ReplaceAll(s, c, r) == s
    decreases |s|
  {
    if s != [] {
      assert s[0] != c;
      ReplaceAllAbsent(s[1..], c, r);
      assert [s[0]] + s[1..] == s;
    }
  }

  lemma ReplaceAllOne(x: char, c: char, r: string)
    ensures ReplaceAll([x], c, r) == if x == c then r else [x]
  {
    assert [x][1..] == [];
  }

  /** `escapeHtml`: `&` first, then `<`, `>` and `"`. */
  function EscapeHtml(s: string): string {
    ReplaceAll(ReplaceAll(ReplaceAll(ReplaceAll(s, '&', "&amp;"), '<', "&lt;"), '>', "&gt;"), '"', "&quot;")
  }

  /** The entity for one character. */
  function EscapeChar(c: char): string {
    if c == '&' then "&amp;" else if c == '<' then "&lt;" else if c == '>' then "&gt;"
    else if c == '"' then "&quot;" else [c]
  }

  /** One character at a time. */
  function EscapeEach(s: string): string
    decreases |s|
  {
    if s == [] then [] else EscapeChar(s[0]) + EscapeEach(s[1..])
  }

  lemma EscapeHtmlAppend(a: string, b: string)
    ensures EscapeHtml(a + b) == EscapeHtml(a) + EscapeHtml(b)
  {
    var a1, b1 := ReplaceAll(a, '&', "&amp;"), ReplaceAll(b, '&', "&amp;");
    ReplaceAllAppend(a, b, '&', "&amp;");
    var a2, b2 := ReplaceAll(a1, '<', "&lt;"), ReplaceAll(b1, '<', "&lt;");
    ReplaceAllAppend(a1, b1, '<', "&lt;");
    var a3, b3 := ReplaceAll(a2, '>', "&gt;"), ReplaceAll(b2, '>', "&gt;");
    ReplaceAllAppend(a2, b2, '>', "&gt;");
    ReplaceAllAppend(a3, b3, '"', "&quot;");
  }

  lemma EscapeHtmlAmp()
    ensures EscapeHtml("&") == "&amp;"
  {
    var amp := "&amp;";
    assert '<' !in amp && '>' !in amp && '"' !in amp;
    ReplaceAllOne('&', '&', amp);
    assert ReplaceAll("&", '&', amp) == amp;
    ReplaceAllAbsent(amp, '<', "&lt;");
    ReplaceAllAbsent(amp, '>', "&gt;");
    ReplaceAllAbsent(amp, '"', "&quot;");
  }

  lemma EscapeHtmlLt()
    ensures EscapeHtml("<") == "&lt;"
  {
    var lt := "&lt;";
    assert '>' !in lt && '"' !in lt;
    ReplaceAllOne('<', '&', "&amp;");
    assert ReplaceAll("<", '&', "&amp;") == "<";
    ReplaceAllOne('<', '<', lt);
    assert ReplaceAll("<", '<', lt) == lt;
    ReplaceAllAbsent(lt, '>', "&gt;");
    ReplaceAllAbsent(lt, '"', "&quot;");
  }

  lemma EscapeHtmlGt()
    ensures EscapeHtml(">") == "&gt;"
  {
    ReplaceAllOne('>', '&', "&amp;");
    ReplaceAllOne('>', '<', "&lt;");
    ReplaceAllOne('>', '>', "&gt;");
    ReplaceAllAbsent("&gt;", '"', "&quot;");
  }

  lemma EscapeHtmlQuot()
    ensures EscapeHtml("\"") == "&quot;"
  {
    ReplaceAllOne('"', '&', "&amp;");
    ReplaceAllOne('"', '<', "&lt;");
    ReplaceAllOne('"', '>', "&gt;");
    ReplaceAllOne('"', '"', "&quot;");
  }

  lemma EscapeHtmlPlain(x: char)
    requires x != '&' && x != '<' && x != '>' && x != '"'
    ensures EscapeHtml([x]) == [x]
  {
    ReplaceAllOne(x, '&', "&amp;");
    ReplaceAllOne(x, '<', "&lt;");
    ReplaceAllOne(x, '>', "&gt;");
    ReplaceAllOne(x, '"', "&quot;");
  }

  lemma EscapeHtmlOne(x: char)
    ensures EscapeHtml([x]) == EscapeChar(x)
  {
    if x == '&' {
      EscapeHtmlAmp();
    } else if x == '<' {
      EscapeHtmlLt();
    } else if x == '>' {
      EscapeHtmlGt();
    } else if x == '"' {
      EscapeHtmlQuot();
    } else {
      EscapeHtmlPlain(x);
    }
  }

  /** Because `&` goes first, the `&` of the later entities is never escaped again:
      the chain escapes each character once. */
  lemma {:induction false} EscapeHtmlEach(s: string)
    ensures EscapeHtml(s) == EscapeEach(s)
    decreases |s|
  {
    if s == [] {
      assert EscapeHtml(s) == [];
    } else {
      assert s == [s[0]] + s[1..];
      EscapeHtmlAppend([s[0]], s[1..]);
      EscapeHtmlOne(s[0]);
      EscapeHtmlEach(s[1..]);
    }
  }

  /** Turns the four entities back into their characters. */
  function UnescapeHtml(s: string): string
    decreases |s|
  {
    if s == [] then []
    else if StartsWith(s, "&amp;") then "&" + UnescapeHtml(s[5..])
    else if StartsWith(s, "&lt;") then "<" + UnescapeHtml(s[4..])
    else if StartsWith(s, "&gt;") then ">" + UnescapeHtml(s[4..])
    else if StartsWith(s, "&quot;") then "\"" + UnescapeHtml(s[6..])
    else [s[0]] + UnescapeHtml(s[1..])
  }

  lemma UnescapeAmp(t: string)
    ensures UnescapeHtml("&amp;" + t) == "&" + UnescapeHtml(t)
  {
    var e := "&amp;" + t;
    Prefix(e, "&amp;", t);
  }

  lemma UnescapeLt(t: string)
    ensures UnescapeHtml("&lt;" + t) == "<" + UnescapeHtml(t)
  {
    var e := "&lt;" + t;
    Prefix(e, "&lt;", t);
    Differs(e, "&amp;", 1);
  }

  lemma UnescapeGt(t: string)
    ensures UnescapeHtml("&gt;" + t) == ">" + UnescapeHtml(t)
  {
    var e := "&gt;" + t;
    Prefix(e, "&gt;", t);
    Differs(e, "&amp;", 1);
    Differs(e, "&lt;", 1);
  }

  lemma UnescapeQuot(t: string)
    ensures UnescapeHtml("&quot;" + t) == "\"" + UnescapeHtml(t)
  {
    var e := "&quot;" + t;
    Prefix(e, "&quot;", t);
    Differs(e, "&amp;", 1);
    Differs(e, "&lt;", 1);
    Differs(e, "&gt;", 1);
  }

  /** `p + t` starts with `p`, and what follows it is `t`. */
  lemma Prefix(e: string, p: string, t: string)
    requires e == p + t
    ensures StartsWith(e, p) && e[|p|..] == t
  {
    assert e[..|p|] == p;
  }

  /** A text that differs from `p` at position `i` does not start with `p`. */
  lemma Differs(e: string, p: string, i: nat)
    requires i < |p| && i < |e| && e[i] != p[i]
    ensures !StartsWith(e, p)
  {
    if |p| <= |e| {
      assert e[..|p|][i] != p[i];
    }
  }

  lemma UnescapePlain(x: char, t: string)
    requires x != '&'
    ensures UnescapeHtml([x] + t) == [x] + UnescapeHtml(t)
  {
    var e := [x] + t;
    Prefix(e, [x], t);
    Differs(e, "&amp;", 0);
    Differs(e, "&lt;", 0);
    Differs(e, "&gt;", 0);
    Differs(e, "&quot;", 0);
  }

  lemma UnescapeChar(x: char, t: string)
    ensures UnescapeHtml(EscapeChar(x) + t) == [x] + UnescapeHtml(t)
  {
    if x == '&' {
      UnescapeAmp(t);
    } else if x == '<' {
      UnescapeLt(t);
    } else if x == '>' {
      UnescapeGt(t);
    } else if x == '"' {
      UnescapeQuot(t);
    } else {
      UnescapePlain(x, t);
    }
  }

  lemma {:induction false} UnescapeEach(s: string)
    ensures UnescapeHtml(EscapeEach(s)) == s
    decreases |s|
  {
    if s != [] {
      assert EscapeEach(s) == EscapeChar(s[0]) + EscapeEach(s[1..]);
      UnescapeChar(s[0], EscapeEach(s[1..]));
      UnescapeEach(s[1..]);
      assert [s[0]] + s[1..] == s;
    }
  }

  lemma {:induction false} EscapeEachSafe(s: string)
    ensures var r := EscapeEach(s);
      forall i :: 0 <= i < |r| ==> r[i] != '<' && r[i] != '>' && r[i] != '"'
    decreases |s|
  {
    if s != [] {
      EscapeEachSafe(s[1..]);
      var r := EscapeEach(s);
      var h := EscapeChar(s[0]);
      assert r == h + EscapeEach(s[1..]);
      forall i | 0 <= i < |r| ensures r[i] != '<' && r[i] != '>' && r[i] != '"' {
        if i >= |h| {
          assert r[i] == EscapeEach(s[1..])[i - |h|];
        }
      }
    }
  }

  /** The escaped text holds no `<`, `>` or `"`, and unescaping gives back the input. */
  lemma EscapeHtmlSpec(s: string)
    ensures var r := EscapeHtml(s);
      && (forall i :: 0 <= i < |r| ==> r[i] != '<' && r[i] != '>' && r[i] != '"')
      && UnescapeHtml(r) == s
  {
    EscapeHtmlEach(s);
    EscapeEachSafe(s);
    UnescapeEach(s);
  }

  // ----- The label -----

  /** `customerName`: both names, else the email, else "Cliente". */
  function CustomerName(c: Customer): (r: string)
    ensures Truthy(c.firstName) && Truthy(c.lastName) ==> r == c.firstName.value + " " + c.lastName.value
    ensures !(Truthy(c.firstName) && Truthy(c.lastName)) && Truthy(c.email) ==> r == c.email.value
    ensures !(Truthy(c.firstName) && Truthy(c.lastName)) && !Truthy(c.email) ==> r == "Cliente"
  {
    if Truthy(c.firstName) && Truthy(c.lastName) then c.firstName.value + " " + c.lastName.value
    else Or(c.email, "Cliente")
  }

  function AddressParts(a: Address, customerName: string): seq<string> {
    [Or(a.receiverName, customerName), a.street, a.city + ", " + a.state, a.zipCode, a.country]
  }

  /** The address block: the non-empty parts, one per line. */
  function AddressText(o: Order): string {
    if o.shippingAddress.None? then "Direccion no disponible"
    else Join(NonEmpty(AddressParts(o.shippingAddress.value, CustomerName(o.customer))), "\n")
  }

  /** One item line; `money` is `toLocaleString('es-CO')`, which is not part of this
      model. A missing unit price makes `toLocaleString` throw. */
  function ItemLine(it: Item, currency: string, money: int -> string): Option<string> {
    if it.unitPrice.None? then None
    else Some("\U{2022} " + it.title + " \U{D7} " + IntToString(it.quantity) + " @ $" + money(it.unitPrice.value) + " " + currency)
  }

  /** All item lines, or `None` when one of them throws. */
  function ItemLines(items: seq<Item>, currency: string, money: int -> string): (r: Option<seq<string>>)
    ensures r.Some? <==> forall it :: it in items ==> it.unitPrice.Some?
    ensures r.Some? ==> |r.value| == |items|
    ensures r.Some? ==> forall i :: 0 <= i < |items| ==> Some(r.value[i]) == ItemLine(items[i], currency, money)
    decreases |items|
  {
    if items == [] then Some([])
    else
      var head := ItemLine(items[0], currency, money);
      var rest := ItemLines(items[1..], currency, money);
      assert forall it :: it in items ==> it == items[0] || it in items[1..];
      if head.None? || rest.None? then None else Some([head.value] + rest.value)
  }

  /** The escaped slots of the label page. */
  datatype Label = Label(orderId: string, address: string, items: string, total: string, currency: string)

  datatype Printed = NotWix | Thrown | Printed(slots: Label)

  /** `printWixLabel`, up to the point where the page is written. */
  function PrintWixLabel(o: Order, money: int -> string): Printed {
    if o.channel != Wix then NotWix
    else
      var lines := ItemLines(o.items, o.currency, money);
      if lines.None? || o.totalAmount.None? then Thrown
      else Printed(Label(EscapeHtml(o.orderId), EscapeHtml(AddressText(o)), EscapeHtml(Join(lines.value, "\n")),
                         money(o.totalAmount.value), EscapeHtml(o.currency)))
  }

  /** Only Wix orders get a label; the address lists only non-empty parts, falls back
      to the customer's name for the recipient and says "Direccion no disponible"
      when there is no address; every slot unescapes back to its text. */
  lemma PrintWixLabelSpec(o: Order, money: int -> string)
    ensures PrintWixLabel(o, money).NotWix? <==> o.channel != Wix
    ensures PrintWixLabel(o, money).Printed? <==>
      o.channel == Wix && o.totalAmount.Some? && forall it :: it in o.items ==> it.unitPrice.Some?
    ensures PrintWixLabel(o, money).Printed? ==>
      var l := PrintWixLabel(o, money).slots;
      && UnescapeHtml(l.orderId) == o.orderId
      && UnescapeHtml(l.address) == AddressText(o)
      && UnescapeHtml(l.items) == Join(ItemLines(o.items, o.currency, money).value, "\n")
      && l.total == money(o.totalAmount.value)
      && UnescapeHtml(l.currency) == o.currency
    ensures o.shippingAddress.None? ==> AddressText(o) == "Direccion no disponible"
    ensures o.shippingAddress.Some? ==>
      var parts := NonEmpty(AddressParts(o.shippingAddress.value, CustomerName(o.customer)));
      && (forall x :: x in parts ==> x != "")
      && (o.shippingAddress.value.city + ", " + o.shippingAddress.value.state) in parts
      && Or(o.shippingAddress.value.receiverName, CustomerName(o.customer)) == (if Truthy(o.shippingAddress.value.receiverName) then o.shippingAddress.value.receiverName.value else CustomerName(o.customer))
  {
    EscapeHtmlSpec(o.orderId);
    EscapeHtmlSpec(AddressText(o));
    EscapeHtmlSpec(o.currency);
    var lines := ItemLines(o.items, o.currency, money);
    if lines.Some? {
      EscapeHtmlSpec(Join(lines.value, "\n"));
    }
    if o.shippingAddress.Some? {
      var a := o.shippingAddress.value;
      var parts := AddressParts(a, CustomerName(o.customer));
      assert parts[2] == a.city + ", " + a.state;
      assert |parts[2]| >= 2;
      assert parts[2] in parts;
    }
  }
}
