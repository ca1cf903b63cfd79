/** `tool_consultar_status`: the read-only report of low-stock products and samples out with a
    seller. It is a function of the two tables, so it changes nothing. */
module Report {
  import opened Wrappers
  import opened Text
  import opened Tables
  import opened Operations

  const StockOk: string := "Estoque OK"
  const NoSampleOut: string := "Nenhuma amostra em rua"

  /** `Produto.quantidade <= Produto.estoque_minimo`. */
  predicate IsLow(p: Product) {
    p.quantidade <= p.estoque_minimo
  }

  /** `Amostra.status == 'EM_RUA'`. */
  predicate IsOut(a: Sample) {
    a.status == Some(EmRua)
  }

  /** The low-stock products, in store order. */
  function LowStock(ps: seq<Product>): (r: seq<Product>)
    ensures |r| <= |ps|
    ensures forall k :: 0 <= k < |r| ==> IsLow(r[k])
    decreases |ps|
  {
    if |ps| == 0 then []
    else if IsLow(ps[0]) then [ps[0]] + LowStock(ps[1..])
    else LowStock(ps[1..])
  }

  /** The samples out with a seller, in store order. */
  function OutSamples(ss: seq<Sample>): (r: seq<Sample>)
    ensures |r| <= |ss|
    ensures forall k :: 0 <= k < |r| ==> IsOut(r[k])
    decreases |ss|
  {
    if |ss| == 0 then []
    else if IsOut(ss[0]) then [ss[0]] + OutSamples(ss[1..])
    else OutSamples(ss[1..])
  }

  /** Every low product appears in the report as often as it is in the table, and no other. */
  lemma {:induction false} LowStockExact(ps: seq<Product>, p: Product)
    ensures multiset(LowStock(ps))[p] == if IsLow(p) then multiset(ps)[p] else 0
    decreases |ps|
  {
    if |ps| > 0 {
      LowStockExact(ps[1..], p);
      assert ps == [ps[0]] + ps[1..];
    }
  }

  /** The selection keeps store order: it distributes over concatenation. */
  lemma {:induction false} LowStockAppend(a: seq<Product>, b: seq<Product>)
    ensures LowStock(a + b) == LowStock(a) + LowStock(b)
    decreases |a|
  {
    if |a| > 0 {
      LowStockAppend(a[1..], b);
      assert (a + b)[0] == a[0] && (a + b)[1..] == a[1..] + b;
    } else {
      assert a + b == b;
    }
  }

  lemma {:induction false} OutSamplesExact(ss: seq<Sample>, a: Sample)
    ensures multiset(OutSamples(ss))[a] == if IsOut(a) then multiset(ss)[a] else 0
    decreases |ss|
  {
    if |ss| > 0 {
      OutSamplesExact(ss[1..], a);
      assert ss == [ss[0]] + ss[1..];
    }
  }

  lemma {:induction false} OutSamplesAppend(a: seq<Sample>, b: seq<Sample>)
    ensures OutSamples(a + b) == OutSamples(a) + OutSamples(b)
    decreases |a|
  {
    if |a| > 0 {
      OutSamplesAppend(a[1..], b);
      assert (a + b)[0] == a[0] && (a + b)[1..] == a[1..] + b;
    } else {
      assert a + b == b;
    }
  }

  /** The report counts a sample as out from its check-out until its return. */
  lemma LogisticsAgreesWithReport(a: Sample, user: string, cliente: Option<string>,
                                  logradouro: Option<string>, dias: int, now: Timestamp)
    ensures IsOut(CheckOut(a, user, cliente, logradouro, dias, now))
    ensures !IsOut(Return(a))
  {
  }

  /** `f"{p.nome} ({p.quantidade})"`. */
  function ProductEntry(p: Product): (r: string)
    ensures |r| > 0 && r[|r| - 1] == ')'
  {
    p.nome + " (" + IntText(p.quantidade) + ")"
  }

  /** How an f-string prints an optional text: Python prints a missing one as `None`. */
  function OptionText(o: Option<string>): string {
    match o
    case Some(s) => s
    case None => "None"
  }

  /** `f"{a.nome} com {a.vendedor_responsavel}"`. */
  function SampleEntry(a: Sample): string {
    a.nome + " com " + OptionText(a.vendedor_responsavel)
  }

  function ProductEntries(ps: seq<Product>): (r: seq<string>)
    ensures |r| == |ps|
    ensures forall k :: 0 <= k < |ps| ==> r[k] == ProductEntry(ps[k])
  {
    seq(|ps|, k requires 0 <= k < |ps| => ProductEntry(ps[k]))
  }

  function SampleEntries(ss: seq<Sample>): (r: seq<string>)
    ensures |r| == |ss|
    ensures forall k :: 0 <= k < |ss| ==> r[k] == SampleEntry(ss[k])
  {
    seq(|ss|, k requires 0 <= k < |ss| => SampleEntry(ss[k]))
  }

  /** The stock half of the report: the low products, or "Estoque OK" exactly when there are none. */
  function StockLine(ps: seq<Product>): (r: string)
    ensures r == StockOk <==> LowStock(ps) == []
  {
    var low := LowStock(ps);
    if |low| == 0 then StockOk
    else
      var entries := ProductEntries(low);
      JoinEndsWithLast(entries, ", ");
      Join(entries, ", ")
  }

  /** A sample entry always holds the letter `c` (of " com "). */
  lemma SampleEntryHasC(a: Sample)
    ensures 'c' in SampleEntry(a)
  {
  }

  /** The sample half of the report: the samples out, or "Nenhuma amostra em rua" exactly when
      there are none (that text holds no `c`, every sample entry does). */
  function SampleLine(ss: seq<Sample>): (r: string)
    ensures r == NoSampleOut <==> OutSamples(ss) == []
  {
    var out := OutSamples(ss);
    if |out| == 0 then NoSampleOut
    else
      var entries := SampleEntries(out);
      JoinStartsWithFirst(entries, ", ");
      SampleEntryHasC(out[0]);
      assert 'c' !in NoSampleOut;
      Join(entries, ", ")
  }

  /** The whole report text. */
  function StatusReport(ps: seq<Product>, ss: seq<Sample>): string {
    "ALERTA ESTOQUE: " + StockLine(ps) + "\nAMOSTRAS FORA: " + SampleLine(ss)
  }

  lemma {:induction false} NoLowStock(ps: seq<Product>)
    requires forall k :: 0 <= k < |ps| ==> !IsLow(ps[k])
    ensures LowStock(ps) == []
    decreases |ps|
  {
    if |ps| > 0 {
      NoLowStock(ps[1..]);
    }
  }

  lemma {:induction false} NoOutSamples(ss: seq<Sample>)
    requires forall k :: 0 <= k < |ss| ==> !IsOut(ss[k])
    ensures OutSamples(ss) == []
    decreases |ss|
  {
    if |ss| > 0 {
      NoOutSamples(ss[1..]);
    }
  }

  /** With nothing low and nothing out, the report is the two all-clear texts. */
  lemma AllClearReport(ps: seq<Product>, ss: seq<Sample>)
    requires forall k :: 0 <= k < |ps| ==> !IsLow(ps[k])
    requires forall k :: 0 <= k < |ss| ==> !IsOut(ss[k])
    ensures StatusReport(ps, ss) == "ALERTA ESTOQUE: " + StockOk + "\nAMOSTRAS FORA: " + NoSampleOut
  {
    NoLowStock(ps);
    NoOutSamples(ss);
    assert StockLine(ps) == StockOk && SampleLine(ss) == NoSampleOut;
  }

  /** Every low-stock product is named in the stock half, with its quantity. */
  lemma StockLineNamesLowProduct(ps: seq<Product>, p: Product)
    requires p in ps && IsLow(p)
    ensures exists pos :: OccursAt(StockLine(ps), ProductEntry(p), pos)
  {
    LowStockExact(ps, p);
    var low := LowStock(ps);
    assert p in low;
    var k :| 0 <= k < |low| && low[k] == p;
    var entries := ProductEntries(low);
    JoinHasPart(entries, ", ", k);
    assert StockLine(ps) == Join(entries, ", ");
  }

  /** Every sample out is named in the sample half, with its holder. */
  lemma SampleLineNamesOutSample(ss: seq<Sample>, a: Sample)
    requires a in ss && IsOut(a)
    ensures exists pos :: OccursAt(SampleLine(ss), SampleEntry(a), pos)
  {
    OutSamplesExact(ss, a);
    var out := OutSamples(ss);
    assert a in out;
    var k :| 0 <= k < |out| && out[k] == a;
    var entries := SampleEntries(out);
    JoinHasPart(entries, ", ", k);
    assert SampleLine(ss) == Join(entries, ", ");
  }

  /** Every low-stock product is named in the report, with its quantity. */
  lemma ReportNamesLowProduct(ps: seq<Product>, ss: seq<Sample>, p: Product)
    requires p in ps && IsLow(p)
    ensures exists pos :: OccursAt(StatusReport(ps, ss), ProductEntry(p), pos)
  {
    StockLineNamesLowProduct(ps, p);
    var pos :| OccursAt(StockLine(ps), ProductEntry(p), pos);
    var head := "ALERTA ESTOQUE: ";
    OccursInSecond(head, StockLine(ps), "\nAMOSTRAS FORA: ", SampleLine(ss), ProductEntry(p), pos);
    assert OccursAt(StatusReport(ps, ss), ProductEntry(p), |head| + pos);
  }

  /** Every sample out is named in the report, with its holder. */
  lemma ReportNamesOutSample(ps: seq<Product>, ss: seq<Sample>, a: Sample)
    requires a in ss && IsOut(a)
    ensures exists pos :: OccursAt(StatusReport(ps, ss), SampleEntry(a), pos)
  {
    var head, line := "ALERTA ESTOQUE: " + StockLine(ps) + "\nAMOSTRAS FORA: ", SampleLine(ss);
    SampleLineNamesOutSample(ss, a);
    var pos :| OccursAt(line, SampleEntry(a), pos);
    OccursInConcat(head, line, SampleEntry(a), pos);
    assert StatusReport(ps, ss) == head + line;
  }
}
