/** Composition of the order-status email (src/lib/email.ts): the status
    label, one table row per order item, the address with line breaks, the
    subject line, and the result contract of the send step. The mail
    transport is an input outcome. */
module Email {
  import opened Wrappers
  import opened Strings
  import opened Schema

  // ---------------------------------------------------------------- labels

  /** newStatus.replace(/([A-Z])/g, " $1"): a space before every capital. */
  function SpaceBeforeCapitals(s: string): string
  {
    if s == [] then [] else Spaced(s[0]) + SpaceBeforeCapitals(s[1..])
  }

  function StatusLabel(status: string): string
  {
    Trim(SpaceBeforeCapitals(status))
  }

  /** The text with its ' ' characters removed. */
  function WithoutSpaces(s: string): string
  {
    if s == [] then [] else DropSpace(s[0]) + WithoutSpaces(s[1..])
  }

  function DropSpace(c: char): string
  {
    if c == ' ' then [] else [c]
  }

  lemma {:induction false} WithoutSpacesAppend(a: string, b: string)
    ensures WithoutSpaces(a + b) == WithoutSpaces(a) + WithoutSpaces(b)
    decreases |a|
  {
    if a != [] {
      assert (a + b)[0] == a[0];
      assert (a + b)[1..] == a[1..] + b;
      WithoutSpacesAppend(a[1..], b);
      assert WithoutSpaces(a + b) == DropSpace(a[0]) + (WithoutSpaces(a[1..]) + WithoutSpaces(b));
    } else {
      assert a + b == b;
    }
  }

  /** The head piece SpaceBeforeCapitals puts in front of one character. */
  function Spaced(c: char): string
  {
    if IsAsciiUpper(c) then [' ', c] else [c]
  }

  lemma {:induction false} WithoutSpacesOfSpaced(s: string)
    requires ' ' !in s
    ensures WithoutSpaces(SpaceBeforeCapitals(s)) == s
    decreases |s|
  {
    if s != [] {
      WithoutSpacesAppend(Spaced(s[0]), SpaceBeforeCapitals(s[1..]));
      assert WithoutSpaces(Spaced(s[0])) == [s[0]] by {
        if IsAsciiUpper(s[0]) { assert Spaced(s[0])[1..] == [s[0]]; }
      }
      WithoutSpacesOfSpaced(s[1..]);
    }
  }

  /** The text has no whitespace at all. */
  predicate NoJsSpace(s: string)
  {
    forall i :: 0 <= i < |s| ==> !IsJsSpace(s[i])
  }

  /** The only whitespace in the text is ' '. */
  predicate OnlyBlanks(s: string)
  {
    forall i :: 0 <= i < |s| ==> IsJsSpace(s[i]) ==> s[i] == ' '
  }

  /** Trimming the front removes only what WithoutSpaces removes. */
  lemma {:induction false} WithoutSpacesOfTrimStart(x: string)
    requires OnlyBlanks(x)
    ensures WithoutSpaces(TrimStart(x)) == WithoutSpaces(x)
    ensures OnlyBlanks(TrimStart(x))
    decreases |x|
  {
    if x != [] && IsJsSpace(x[0]) {
      assert OnlyBlanks(x[1..]) by {
        forall i | 0 <= i < |x[1..]| ensures IsJsSpace(x[1..][i]) ==> x[1..][i] == ' ' {
          assert x[1..][i] == x[i + 1];
        }
      }
      WithoutSpacesOfTrimStart(x[1..]);
    }
  }

  /** Trimming the end removes only what WithoutSpaces removes. */
  lemma {:induction false} WithoutSpacesOfTrimEnd(x: string)
    requires OnlyBlanks(x)
    ensures WithoutSpaces(TrimEnd(x)) == WithoutSpaces(x)
    decreases |x|
  {
    if x != [] && IsJsSpace(x[|x| - 1]) {
      var init := x[..|x| - 1];
      assert x == init + [' '];
      assert OnlyBlanks(init) by {
        forall i | 0 <= i < |init| ensures IsJsSpace(init[i]) ==> init[i] == ' ' {
          assert init[i] == x[i];
        }
      }
      WithoutSpacesAppend(init, [' ']);
      WithoutSpacesOfTrimEnd(init);
    }
  }

  /** Spacing a whitespace-free text leaves ' ' as its only whitespace. */
  lemma {:induction false} SpacedOnlyBlanks(s: string)
    requires NoJsSpace(s)
    ensures OnlyBlanks(SpaceBeforeCapitals(s))
    decreases |s|
  {
    if s != [] {
      var tail := s[1..];
      assert NoJsSpace(tail) by {
        forall i | 0 <= i < |tail| ensures !IsJsSpace(tail[i]) {
          assert tail[i] == s[i + 1];
        }
      }
      SpacedOnlyBlanks(tail);
      var h, t := Spaced(s[0]), SpaceBeforeCapitals(tail);
      assert SpaceBeforeCapitals(s) == h + t;
      forall i | 0 <= i < |h + t| ensures IsJsSpace((h + t)[i]) ==> (h + t)[i] == ' ' {
        if i >= |h| {
          assert (h + t)[i] == t[i - |h|];
        } else {
          assert h[i] == ' ' || h[i] == s[0];
        }
      }
    }
  }

  /** The label keeps every character of a whitespace-free status, in order:
      removing the inserted spaces gives the status back. */
  lemma StatusLabelRoundTrip(status: string)
    requires NoJsSpace(status)
    ensures WithoutSpaces(StatusLabel(status)) == status
  {
    var spaced := SpaceBeforeCapitals(status);
    assert ' ' !in status by {
      assert IsJsSpace(' ');
    }
    SpacedOnlyBlanks(status);
    WithoutSpacesOfTrimStart(spaced);
    WithoutSpacesOfTrimEnd(TrimStart(spaced));
    WithoutSpacesOfSpaced(status);
  }

  lemma {:induction false} NoCapitalsUnchanged(s: string)
    requires forall i :: 0 <= i < |s| ==> !IsAsciiUpper(s[i])
    ensures SpaceBeforeCapitals(s) == s
    decreases |s|
  {
    if s != [] {
      NoCapitalsUnchanged(s[1..]);
    }
  }

  lemma {:induction false} SpaceBeforeCapitalsAppend(a: string, b: string)
    ensures SpaceBeforeCapitals(a + b) == SpaceBeforeCapitals(a) + SpaceBeforeCapitals(b)
    decreases |a|
  {
    if a != [] {
      assert (a + b)[0] == a[0];
      assert (a + b)[1..] == a[1..] + b;
      SpaceBeforeCapitalsAppend(a[1..], b);
      assert SpaceBeforeCapitals(a + b) == Spaced(a[0]) + (SpaceBeforeCapitals(a[1..]) + SpaceBeforeCapitals(b));
    } else {
      assert a + b == b;
    }
  }

  /** A capital followed by no capital gets exactly one leading space. */
  lemma SpacedCapitalFirst(status: string)
    requires status != [] && IsAsciiUpper(status[0])
    requires forall i :: 1 <= i < |status| ==> !IsAsciiUpper(status[i])
    ensures SpaceBeforeCapitals(status) == [' '] + status
  {
    var rest := status[1..];
    NoCapitalsUnchanged(rest);
    calc {
      SpaceBeforeCapitals(status);
      Spaced(status[0]) + SpaceBeforeCapitals(rest);
      [' ', status[0]] + rest;
      [' '] + status;
    }
  }

  /** A status that starts with a capital loses the space put before it,
      and nothing else when no whitespace ends the spaced text. */
  lemma LabelOfSpaced(status: string, shown: string)
    requires SpaceBeforeCapitals(status) == [' '] + shown
    requires shown != [] && !IsJsSpace(shown[0]) && !IsJsSpace(shown[|shown| - 1])
    ensures StatusLabel(status) == shown
  {
    TrimStartSkipsSpace(' ', shown);
    TrimKeepsUnpadded(shown);
  }

  /** A single word: a capital first, then neither capitals nor whitespace. */
  predicate OneWord(w: string)
  {
    w != [] && IsAsciiUpper(w[0]) && forall i :: 1 <= i < |w| ==> !IsAsciiUpper(w[i]) && !IsJsSpace(w[i])
  }

  /** A one-word status is shown as written. */
  lemma SingleWordLabel(status: string)
    requires OneWord(status)
    ensures StatusLabel(status) == status
  {
    SpacedCapitalFirst(status);
    LabelOfSpaced(status, status);
  }

  lemma SpacedTwoWords(first: string, second: string)
    requires OneWord(first) && OneWord(second)
    ensures SpaceBeforeCapitals(first + second) == [' '] + (first + [' '] + second)
  {
    var sf, ss := SpaceBeforeCapitals(first), SpaceBeforeCapitals(second);
    assert sf == [' '] + first by { SpacedCapitalFirst(first); }
    assert ss == [' '] + second by { SpacedCapitalFirst(second); }
    calc {
      SpaceBeforeCapitals(first + second);
      { SpaceBeforeCapitalsAppend(first, second); }
      sf + ss;
      ([' '] + first) + ([' '] + second);
      [' '] + (first + [' '] + second);
    }
  }

  /** Two words run together are shown with one space between them. */
  lemma TwoWordLabel(first: string, second: string)
    requires OneWord(first) && OneWord(second)
    ensures StatusLabel(first + second) == first + [' '] + second
  {
    SpacedTwoWords(first, second);
    var shown := first + [' '] + second;
    assert shown[0] == first[0];
    assert shown[|shown| - 1] == second[|second| - 1];
    LabelOfSpaced(first + second, shown);
  }

  /** Every status but InProgress is one word and is shown as the enum names it. */
  lemma OneWordStatusLabels(s: OrderStatus)
    requires s != InProgress
    ensures StatusLabel(StatusName(s)) == StatusName(s)
  {
    SingleWordLabel(StatusName(s));
  }

  /** InProgress is the two words "In" and "Progress". */
  lemma InProgressWords()
    ensures OneWord("In") && OneWord("Progress")
    ensures StatusName(InProgress) == "In" + "Progress"
    ensures "In" + [' '] + "Progress" == "In Progress"
  {
    assert OneWord("In");
    assert OneWord("Progress");
  }

  /** InProgress is shown as "In Progress". */
  lemma InProgressLabel()
    ensures StatusLabel(StatusName(InProgress)) == "In Progress"
  {
    InProgressWords();
    TwoWordLabel("In", "Progress");
  }

  // ------------------------------------------------------------------- JSON

  function HexDigit(d: nat): char
    requires d < 16
  {
    if d < 10 then DigitChar(d) else ('a' as int + d - 10) as char
  }

  /** One character of a JSON.stringify string literal. */
  function EscapeChar(c: char): string
  {
    if c == '"' then "\\\""
    else if c == '\\' then "\\\\"
    else if c == '\U{8}' then "\\b"
    else if c == '\U{C}' then "\\f"
    else if c == '\n' then "\\n"
    else if c == '\r' then "\\r"
    else if c == '\t' then "\\t"
    else if (c as int) < 0x20 then "\\u00" + [HexDigit(c as int / 16), HexDigit(c as int % 16)]
    else [c]
  }

  function Escape(s: string): string
  {
    if s == [] then "" else EscapeChar(s[0]) + Escape(s[1..])
  }

  function JsonString(s: string): string
  {
    "\"" + Escape(s) + "\""
  }

  function JsonValue(v: CustomValue): string
  {
    match v
    case Text(t) => JsonString(t)
    case Number(n) => IntToString(n)
  }

  function JsonMembers(pairs: CustomInput): string
  {
    if pairs == [] then ""
    else
      var member := JsonString(pairs[0].0) + ":" + JsonValue(pairs[0].1);
      if |pairs| == 1 then member else member + "," + JsonMembers(pairs[1..])
  }

  /** JSON.stringify of the custom-input object. */
  function JsonObject(pairs: CustomInput): (r: string)
    ensures |r| >= 2 && r[0] == '{' && r[|r| - 1] == '}'
  {
    "{" + JsonMembers(pairs) + "}"
  }

  // --------------------------------------------------------------- template

  /** The fixed text of the email body, piece by piece, between the values
      filled into it. */
  datatype Template = Template(
    pageHead: string,    // up to "Hi "
    afterName: string,   // up to the '#' before the short order id
    afterId: string,     // up to the <strong> around the status label
    tableHead: string,   // the rest of that paragraph, the table head, <tbody>
    totalOpen: string,   // </tbody></table> and the total's paragraph up to its amount
    totalClose: string,  // up to the <br/> before the address
    pageFoot: string,    // the closing paragraph and </body></html>
    rowOpen: string,
    cellOpen: string,
    cellClose: string,
    rowClose: string,
    currency: string)

  /** The text of buildOrderEmailHtml in src/lib/email.ts. */
  const ORDER_EMAIL := Template(
    "\n<!DOCTYPE html>\n<html>\n<head><meta charset=\"utf-8\"><title>Order Update</title></head>\n"
    + "<body style=\"font-family:sans-serif;max-width:600px;margin:0 auto;padding:20px\">\n"
    + "  <div style=\"background:linear-gradient(135deg,#667eea,#764ba2);color:white;padding:20px;border-radius:12px;margin-bottom:20px\">\n"
    + "    <h1 style=\"margin:0\">3D Print with Sruthi</h1>\n"
    + "    <p style=\"margin:8px 0 0 0;opacity:0.9\">Order status update</p>\n"
    + "  </div>\n"
    + "  <p>Hi ",
    ",</p>\n  <p>Your order <strong>#",
    "</strong> status has been updated to: <strong>",
    "</strong>.</p>\n  <h3>Order details</h3>\n"
    + "  <table style=\"width:100%;border-collapse:collapse\">\n"
    + "    <thead>\n"
    + "      <tr style=\"background:#f5f5f5\">\n"
    + "        <th style=\"padding:8px;border:1px solid #eee;text-align:left\">Product</th>\n"
    + "        <th style=\"padding:8px;border:1px solid #eee\">Qty</th>\n"
    + "        <th style=\"padding:8px;border:1px solid #eee\">Price</th>\n"
    + "        <th style=\"padding:8px;border:1px solid #eee;text-align:left\">Custom input</th>\n"
    + "      </tr>\n"
    + "    </thead>\n"
    + "    <tbody>",
    "</tbody>\n  </table>\n  <p style=\"margin-top:16px\"><strong>Total: ",
    "</strong></p>\n  <p style=\"margin-top:16px\"><strong>Shipping address:</strong><br/>",
    "</p>\n  <p style=\"margin-top:24px;color:#666;font-size:14px\">Thank you for shopping with us.</p>\n"
    + "</body>\n</html>",
    "\n    <tr>",
    "\n      <td style=\"padding:8px;border:1px solid #eee\">",
    "</td>",
    "\n    </tr>",
    "\U{20B9}")

  // ------------------------------------------------------------------- rows

  /** An order item as the email reads it, with its product's name. */
  datatype EmailItem = EmailItem(productName: string, quantity: int, price: int, customInput: Option<CustomInput>)

  /** The custom-input cell: "-" when there is no custom input, its JSON otherwise. */
  function CustomCell(ci: Option<CustomInput>): (r: string)
    ensures r == "-" <==> ci.None?
  {
    match ci
    case None => "-"
    case Some(pairs) => JsonObject(pairs)
  }

  function Cell(tpl: Template, content: string): string
  {
    tpl.cellOpen + content + tpl.cellClose
  }

  /** One table row: product name, quantity, price, custom input. */
  function Row(tpl: Template, item: EmailItem): string
  {
    tpl.rowOpen + Cell(tpl, item.productName) + Cell(tpl, IntToString(item.quantity))
    + Cell(tpl, tpl.currency + IntToString(item.price)) + Cell(tpl, CustomCell(item.customInput)) + tpl.rowClose
  }

  /** The rows of the items, one per item, in item order. */
  function Rows(tpl: Template, items: seq<EmailItem>): seq<string>
  {
    MapSeq(item => Row(tpl, item), items)
  }

  /** Array.prototype.map. */
  function MapSeq<A, B>(f: A -> B, s: seq<A>): seq<B>
  {
    seq(|s|, i requires 0 <= i < |s| => f(s[i]))
  }

  lemma MapSeqAppend<A, B>(f: A -> B, a: seq<A>, b: seq<A>)
    ensures MapSeq(f, a + b) == MapSeq(f, a) + MapSeq(f, b)
  {
  }

  /** join(""). */
  function Concat(parts: seq<string>): string
  {
    if parts == [] then "" else parts[0] + Concat(parts[1..])
  }

  /** order.orderItems.map(row).join(""). */
  function RowsHtml(tpl: Template, items: seq<EmailItem>): string
  {
    Concat(Rows(tpl, items))
  }

  lemma {:induction false} ConcatAppend(a: seq<string>, b: seq<string>)
    ensures Concat(a + b) == Concat(a) + Concat(b)
    decreases |a|
  {
    if a == [] {
      assert a + b == b;
    } else {
      assert (a + b)[1..] == a[1..] + b;
      ConcatAppend(a[1..], b);
      calc {
        Concat(a + b);
        a[0] + Concat(a[1..] + b);
        a[0] + (Concat(a[1..]) + Concat(b));
        (a[0] + Concat(a[1..])) + Concat(b);
      }
    }
  }

  /** The rows of two item lists are the rows of the first followed by the
      rows of the second. */
  lemma RowsHtmlConcat(tpl: Template, a: seq<EmailItem>, b: seq<EmailItem>)
    ensures RowsHtml(tpl, a + b) == RowsHtml(tpl, a) + RowsHtml(tpl, b)
  {
    MapSeqAppend(item => Row(tpl, item), a, b);
    ConcatAppend(Rows(tpl, a), Rows(tpl, b));
  }

  /** Appending an item appends exactly its row. */
  lemma RowsHtmlAppend(tpl: Template, items: seq<EmailItem>, item: EmailItem)
    ensures RowsHtml(tpl, items + [item]) == RowsHtml(tpl, items) + Row(tpl, item)
  {
    RowsHtmlConcat(tpl, items, [item]);
    assert Rows(tpl, [item]) == [Row(tpl, item)];
    assert Concat([Row(tpl, item)]) == Row(tpl, item) + Concat([]);
  }

  // ---------------------------------------------------------------- address

  /** What one character of the address becomes. */
  function BreakOf(c: char): string
  {
    if c == '\n' then "<br/>" else [c]
  }

  /** address.replace(/\n/g, "<br/>"). */
  function NewlinesToBreaks(s: string): string
  {
    if s == [] then "" else BreakOf(s[0]) + NewlinesToBreaks(s[1..])
  }

  lemma {:induction false} NewlinesToBreaksAppend(a: string, b: string)
    ensures NewlinesToBreaks(a + b) == NewlinesToBreaks(a) + NewlinesToBreaks(b)
    decreases |a|
  {
    if a == [] {
      assert a + b == b;
    } else {
      assert (a + b)[0] == a[0];
      assert (a + b)[1..] == a[1..] + b;
      NewlinesToBreaksAppend(a[1..], b);
      calc {
        NewlinesToBreaks(a + b);
        BreakOf(a[0]) + NewlinesToBreaks(a[1..] + b);
        BreakOf(a[0]) + (NewlinesToBreaks(a[1..]) + NewlinesToBreaks(b));
        (BreakOf(a[0]) + NewlinesToBreaks(a[1..])) + NewlinesToBreaks(b);
        NewlinesToBreaks(a) + NewlinesToBreaks(b);
      }
    }
  }

  /** No newline is left in the shown address. */
  lemma {:induction false} NoNewlineShown(s: string)
    ensures '\n' !in NewlinesToBreaks(s)
    decreases |s|
  {
    if s != [] {
      NoNewlineShown(s[1..]);
      assert '\n' !in BreakOf(s[0]);
    }
  }

  /** A line without a newline is shown unchanged. */
  lemma {:induction false} NewlinesToBreaksNoNewline(s: string)
    requires '\n' !in s
    ensures NewlinesToBreaks(s) == s
    decreases |s|
  {
    if s != [] {
      NewlinesToBreaksNoNewline(s[1..]);
      calc {
        NewlinesToBreaks(s);
        [s[0]] + NewlinesToBreaks(s[1..]);
        [s[0]] + s[1..];
        s;
      }
    }
  }

  /** A line, a newline and the rest show as the line, a break and the rest shown. */
  lemma LineThenBreak(first: string, rest: string)
    requires '\n' !in first
    ensures NewlinesToBreaks(first + "\n" + rest) == first + "<br/>" + NewlinesToBreaks(rest)
  {
    NewlinesToBreaksAppend(first + "\n", rest);
    NewlinesToBreaksAppend(first, "\n");
    NewlinesToBreaksNoNewline(first);
    assert NewlinesToBreaks("\n") == "<br/>" + NewlinesToBreaks([]);
  }

  /** An address composed of lines joined by "\n" shows as the same lines
      joined by "<br/>". */
  lemma {:induction false} LinesBecomeBreaks(lines: seq<string>)
    requires forall i :: 0 <= i < |lines| ==> '\n' !in lines[i]
    ensures NewlinesToBreaks(Join(lines, "\n")) == Join(lines, "<br/>")
    decreases |lines|
  {
    if |lines| == 1 {
      NewlinesToBreaksNoNewline(lines[0]);
    } else if |lines| > 1 {
      LinesBecomeBreaks(lines[1..]);
      LineThenBreak(lines[0], Join(lines[1..], "\n"));
    }
  }

  // ------------------------------------------------------------------ email

  /** The order with its items and owner, as sendOrderStatusEmail receives it. */
  datatype EmailOrder = EmailOrder(
    id: string,
    userName: Option<string>,
    userEmail: string,
    items: seq<EmailItem>,
    totalAmount: int,
    address: string)

  /** `${x}` of a nullable string. */
  function TextOrNull(s: Option<string>): string
  {
    match s
    case None => "null"
    case Some(t) => t
  }

  /** The short order number shown to the customer: its last 8 characters. */
  function ShortId(id: string): string
  {
    LastN(id, 8)
  }

  /** The text before the status label. */
  function Greeting(tpl: Template, order: EmailOrder): string
  {
    tpl.pageHead + TextOrNull(order.userName) + tpl.afterName + ShortId(order.id) + tpl.afterId
  }

  /** The text between the item rows and the address. */
  function TotalLine(tpl: Template, order: EmailOrder): string
  {
    tpl.totalOpen + tpl.currency + IntToString(order.totalAmount) + tpl.totalClose
  }

  /** The page as (greeting + label + table head) + rows + (total + address + footer). */
  function Layout(g: string, l: string, t: string, r: string, p: string, a: string, f: string): string
  {
    (g + l + t) + r + (p + a + f)
  }

  /** The body filled into a template, showing the status's label. */
  function RenderOrderEmail(tpl: Template, order: EmailOrder, newStatus: OrderStatus): string
  {
    RenderWithLabel(tpl, order, StatusLabel(StatusName(newStatus)))
  }

  /** The body filled into a template, with the status shown as `shown`. */
  function RenderWithLabel(tpl: Template, order: EmailOrder, shown: string): string
  {
    Layout(Greeting(tpl, order), shown, tpl.tableHead, RowsHtml(tpl, order.items),
           TotalLine(tpl, order), NewlinesToBreaks(order.address), tpl.pageFoot)
  }

  /** buildOrderEmailHtml. */
  function BuildOrderEmailHtml(order: EmailOrder, newStatus: OrderStatus): string
  {
    RenderOrderEmail(ORDER_EMAIL, order, newStatus)
  }

  /** Where the label, the rows and the address start in the page. */
  lemma LayoutParts(g: string, l: string, t: string, r: string, p: string, a: string, f: string)
    ensures var h := Layout(g, l, t, r, p, a, f);
      StartsAt(h, l, |g|) && StartsAt(h, r, |g| + |l| + |t|)
      && StartsAt(h, a, |g| + |l| + |t| + |r| + |p|)
  {
    var h := Layout(g, l, t, r, p, a, f);
    var i, j := |g| + |l| + |t|, |g| + |l| + |t| + |r| + |p|;
    assert h[|g|..|g| + |l|] == l by {
      assert forall k :: 0 <= k < |l| ==> h[|g| + k] == l[k];
    }
    assert h[i..i + |r|] == r by {
      assert forall k :: 0 <= k < |r| ==> h[i + k] == r[k];
    }
    assert h[j..j + |a|] == a by {
      assert forall k :: 0 <= k < |a| ==> h[j + k] == a[k];
    }
  }

  /** The body holds the status label, then the item rows, then the address
      with its line breaks, each right after the fixed text before it; this
      holds for every template and every label, so for ORDER_EMAIL and the
      label RenderOrderEmail shows. */
  lemma EmailHtmlShowsOrder(tpl: Template, order: EmailOrder, shown: string)
    ensures var html := RenderWithLabel(tpl, order, shown);
      var labelAt := |Greeting(tpl, order)|;
      var rowsAt := labelAt + |shown| + |tpl.tableHead|;
      var addressAt := rowsAt + |RowsHtml(tpl, order.items)| + |TotalLine(tpl, order)|;
      && StartsAt(html, shown, labelAt)
      && StartsAt(html, RowsHtml(tpl, order.items), rowsAt)
      && StartsAt(html, NewlinesToBreaks(order.address), addressAt)
  {
    LayoutParts(Greeting(tpl, order), shown, tpl.tableHead, RowsHtml(tpl, order.items),
                TotalLine(tpl, order), NewlinesToBreaks(order.address), tpl.pageFoot);
  }

  const SUBJECT_PREFIX := "Order #"
  const SUBJECT_STATUS := " \U{2013} Status: "

  /** The subject line: the last 8 characters of the order id (all of it
      when shorter), then the status as the enum spells it. */
  function Subject(orderId: string, newStatus: OrderStatus): (r: string)
    ensures var n := if |orderId| < 8 then |orderId| else 8;
      && |r| == |SUBJECT_PREFIX| + n + |SUBJECT_STATUS| + |StatusName(newStatus)|
      && r[..|SUBJECT_PREFIX|] == SUBJECT_PREFIX
      && r[|SUBJECT_PREFIX|..|SUBJECT_PREFIX| + n] == orderId[|orderId| - n..]
      && r[|r| - |StatusName(newStatus)|..] == StatusName(newStatus)
  {
    var r := SUBJECT_PREFIX + ShortId(orderId) + SUBJECT_STATUS + StatusName(newStatus);
    assert r[..|SUBJECT_PREFIX|] == SUBJECT_PREFIX;
    assert r[|SUBJECT_PREFIX|..|SUBJECT_PREFIX| + |ShortId(orderId)|] == ShortId(orderId);
    assert r[|r| - |StatusName(newStatus)|..] == StatusName(newStatus);
    r
  }

  // ------------------------------------------------------------------- send

  /** SMTP_USER, SMTP_PASS and MAIL_FROM; None is unset. */
  datatype SmtpConfig = SmtpConfig(user: Option<string>, pass: Option<string>, mailFrom: Option<string>)

  /** What the transport did with sendMail: delivered, or threw (an Error
      with its message, or some other value). */
  datatype TransportOutcome = Delivered | ThrewError(message: string) | ThrewOther

  datatype MailMessage = MailMessage(from: string, to: string, subject: string, html: string)

  datatype SendResult = SendResult(ok: bool, error: Option<string>, sent: Option<MailMessage>)

  /** Both credentials set and non-empty. */
  predicate Configured(config: SmtpConfig)
  {
    config.user.Some? && config.user.value != "" && config.pass.Some? && config.pass.value != ""
  }

  /** The message handed to the transport: from MAIL_FROM, else SMTP_USER. */
  function MailFor(config: SmtpConfig, order: EmailOrder, newStatus: OrderStatus): MailMessage
    requires Configured(config)
  {
    var from := match config.mailFrom case Some(f) => f case None => config.user.value;
    MailMessage(from, order.userEmail, Subject(order.id, newStatus), BuildOrderEmailHtml(order, newStatus))
  }

  /** sendOrderStatusEmail: never throws; missing credentials skip sending and
      report ok; a transport failure reports ok:false with its message. */
  function SendOrderStatusEmail(config: SmtpConfig, order: EmailOrder, newStatus: OrderStatus,
                                transport: TransportOutcome): (r: SendResult)
    ensures !Configured(config) ==> r.ok && r.sent.None?
    ensures Configured(config) ==> r.sent == Some(MailFor(config, order, newStatus))
    ensures r.ok <==> !Configured(config) || transport.Delivered?
    ensures r.ok <==> r.error.None?
    ensures Configured(config) && transport.ThrewError? ==> r.error == Some(transport.message)
    ensures Configured(config) && transport.ThrewOther? ==> r.error == Some("Unknown error")
  {
    if !Configured(config) then SendResult(true, None, None)
    else
      var mail := MailFor(config, order, newStatus);
      match transport
      case Delivered => SendResult(true, None, Some(mail))
      case ThrewError(m) => SendResult(false, Some(m), Some(mail))
      case ThrewOther => SendResult(false, Some("Unknown error"), Some(mail))
  }
}
