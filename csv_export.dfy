/**
 * The text `handleExport` builds: a header row and one row per listed
 * product, cells joined by "," and rows by "\n", with no quoting.
 */
module CsvExport {
  import opened Js
  import opened Products
  import Stats

  /** `xs.join(sep)` for a one-character separator. */
  function Join(xs: seq<string>, sep: char): (r: string)
    ensures |xs| == 1 ==> r == xs[0]
    decreases |xs|
  {
    if |xs| == 0 then ""
    else if |xs| == 1 then xs[0]
    else xs[0] + [sep] + Join(xs[1..], sep)
  }

  /** `s.split(sep)` for a one-character separator: never empty. */
  function Split(s: string, sep: char): (r: seq<string>)
    ensures |r| >= 1
    decreases |s|
  {
    if |s| == 0 then [""]
    else
      var rest := Split(s[1..], sep);
      if s[0] == sep then [""] + rest else [[s[0]] + rest[0]] + rest[1..]
  }

  /** A prefix free of the separator joins the first piece of what follows it. */
  lemma {:induction false} SplitPrefix(a: string, b: string, sep: char)
    requires sep !in a
    ensures Split(a + b, sep) == [a + Split(b, sep)[0]] + Split(b, sep)[1..]
    decreases |a|
  {
    if |a| > 0 {
      assert (a + b)[1..] == a[1..] + b;
      assert (a + b)[0] == a[0];
      SplitPrefix(a[1..], b, sep);
      assert [a[0]] + (a[1..] + Split(b, sep)[0]) == a + Split(b, sep)[0];
    } else {
      var r := Split(b, sep);
      assert a + b == b;
      assert a + r[0] == r[0];
      assert [r[0]] + r[1..] == r;
    }
  }

  /** Splitting a join gives back the pieces, when no piece holds the separator. */
  lemma {:induction false} SplitJoin(xs: seq<string>, sep: char)
    requires |xs| >= 1
    requires forall k :: 0 <= k < |xs| ==> sep !in xs[k]
    ensures Split(Join(xs, sep), sep) == xs
    decreases |xs|
  {
    if |xs| == 1 {
      SplitPrefix(xs[0], "", sep);
      assert Split("", sep) == [""];
      assert xs[0] + "" == xs[0];
      assert xs == [xs[0]];
    } else {
      var tail := Join(xs[1..], sep);
      SplitJoin(xs[1..], sep);
      assert Join(xs, sep) == xs[0] + ([sep] + tail);
      SplitPrefix(xs[0], [sep] + tail, sep);
      var u := [sep] + tail;
      assert u[0] == sep && u[1..] == tail;
      assert Split(u, sep) == [""] + xs[1..];
      assert Split(u, sep)[0] == "" && Split(u, sep)[1..] == xs[1..];
      assert xs[0] + "" == xs[0];
      assert xs == [xs[0]] + xs[1..];
    }
  }

  /** What `join` writes for a number; null and undefined become empty. */
  function NumberCell(x: JsNumber, show: real -> string): string {
    match x
    case Num(v) => show(v)
    case NaN => "NaN"
    case _ => ""
  }

  function TextCell(t: Option<string>): string {
    match t
    case Some(s) => s
    case None => ""
  }

  const Header: seq<string> := ["Title", "Price", "Sold", "Rating", "Cost Price ($)", "Postage Cost ($)",
                                "Supplier Link", "Supplier Name", "Notes", "Profit ($)"]

  /** One product's cells, in header order. */
  function Row(p: Product, show: real -> string): (r: seq<string>)
    ensures |r| == 10
    ensures r[9] == NumberCell(Stats.RawProfit(p), show)
  {
    [p.title, NumberCell(p.price, show), NumberCell(p.sold, show), NumberCell(p.rating, show),
     NumberCell(p.costPrice, show), NumberCell(p.postageCost, show), TextCell(p.supplierLink),
     TextCell(p.supplierName), TextCell(p.notes), NumberCell(Stats.RawProfit(p), show)]
  }

  function HeaderLine(): string {
    Join(Header, ',')
  }

  function RowLine(p: Product, show: real -> string): string {
    Join(Row(p, show), ',')
  }

  /** The lines of the export: the header line, then one line per product. */
  function Lines(header: string, ps: seq<Product>, show: real -> string): (r: seq<string>)
    ensures |r| == |ps| + 1
    ensures r[0] == header
    ensures forall k :: 0 <= k < |ps| ==> r[k + 1] == RowLine(ps[k], show)
  {
    seq(|ps| + 1, k requires 0 <= k <= |ps| => if k == 0 then header else RowLine(ps[k - 1], show))
  }

  /** The exported text. Number formatting (`show`) is a parameter. */
  function Export(ps: seq<Product>, show: real -> string): string {
    Join(Lines(HeaderLine(), ps, show), '\n')
  }

  /** A cell holds neither a comma nor a line break. */
  predicate Plain(s: string) {
    ',' !in s && '\n' !in s
  }

  /** Every text cell of the product is plain. */
  predicate PlainText(p: Product) {
    Plain(p.title) && Plain(TextCell(p.supplierLink)) && Plain(TextCell(p.supplierName)) && Plain(TextCell(p.notes))
  }

  /**
   * When numbers print without commas or line breaks and no text cell holds
   * either, the export splits into exactly one line more than there are
   * products: the header, then each product's ten cells in list order. (A
   * comma or line break inside a title or note is written unquoted and breaks
   * this shape.)
   */
  lemma ExportShape(ps: seq<Product>, show: real -> string)
    requires forall x :: Plain(show(x))
    requires forall k :: 0 <= k < |ps| ==> PlainText(ps[k])
    ensures |Split(Export(ps, show), '\n')| == |ps| + 1
    ensures Split(Split(Export(ps, show), '\n')[0], ',') == Header
    ensures forall k :: 0 <= k < |ps| ==> Split(Split(Export(ps, show), '\n')[k + 1], ',') == Row(ps[k], show)
  {
    var lines := Lines(HeaderLine(), ps, show);
    forall k | 0 <= k < |lines| ensures '\n' !in lines[k] {
      if k == 0 {
        HeaderLineShape();
      } else {
        RowLineShape(ps[k - 1], show);
      }
    }
    SplitJoin(lines, '\n');
    assert Split(Export(ps, show), '\n') == lines;
    HeaderLineShape();
    forall k | 0 <= k < |ps| ensures Split(lines[k + 1], ',') == Row(ps[k], show) {
      RowLineShape(ps[k], show);
    }
  }

  /** The header is one line of ten comma-separated names. */
  lemma HeaderLineShape()
    ensures '\n' !in HeaderLine()
    ensures Split(HeaderLine(), ',') == Header
  {
    forall k | 0 <= k < |Header| ensures Plain(Header[k]) {
      HeaderNamePlain(k);
    }
    JoinAvoids(Header, ',', '\n');
    SplitJoin(Header, ',');
  }

  lemma HeaderNamePlain(k: nat)
    requires k < |Header|
    ensures Plain(Header[k])
  {
    var h := Header[k];
    forall i | 0 <= i < |h| ensures h[i] != ',' && h[i] != '\n' {
    }
  }

  /** A product's line is one line, and splits on commas into its ten cells. */
  lemma RowLineShape(p: Product, show: real -> string)
    requires forall x :: Plain(show(x))
    requires PlainText(p)
    ensures '\n' !in RowLine(p, show)
    ensures Split(RowLine(p, show), ',') == Row(p, show)
  {
    var row := Row(p, show);
    forall x: JsNumber ensures Plain(NumberCell(x, show)) {
      if x.Num? {
        assert Plain(show(x.v));
      }
    }
    assert forall c :: 0 <= c < |row| ==> Plain(row[c]);
    SplitJoin(row, ',');
    JoinAvoids(row, ',', '\n');
  }

  /** A join of pieces free of `c` is free of `c`, when the separator is not `c`. */
  lemma {:induction false} JoinAvoids(xs: seq<string>, sep: char, c: char)
    requires sep != c
    requires forall k :: 0 <= k < |xs| ==> c !in xs[k]
    ensures c !in Join(xs, sep)
    decreases |xs|
  {
    if |xs| > 1 {
      JoinAvoids(xs[1..], sep, c);
    }
  }

  /**
   * The profit column is `(p.price - (p.cost_price || 0)) * (p.sold || 0)`,
   * the statistics' formula without its NaN guard: where the stats count 0
   * for a NaN profit, the export writes "NaN".
   */
  lemma ExportProfitMatchesStats(p: Product, show: real -> string)
    ensures Stats.RawProfit(p).Num? ==> Stats.ProfitOf(p) == Stats.RawProfit(p).v && Row(p, show)[9] == show(Stats.RawProfit(p).v)
    ensures Stats.RawProfit(p).Num? || Stats.RawProfit(p).NaN?
    ensures Stats.RawProfit(p).NaN? ==> Stats.ProfitOf(p) == 0.0 && Row(p, show)[9] == "NaN"
  {
    ArithmeticIsNumeric(Sub(p.price, Num(OrZero(p.costPrice))), Num(OrZero(p.sold)));
  }
}
