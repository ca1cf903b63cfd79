/** The three tables of the application (`Produto`, `Amostra`, `Log`) as values, and the two
    lookups the handlers make on them: the first product whose name contains a search term
    (`nome ILIKE '%term%'` followed by `.first()`), and a row by primary key (`get_or_404`).
    Rows are kept in store order; `.first()` and `.all()` read them in that order. */
module Tables {
  import opened Wrappers
  import opened Text

  /** A point in time, in seconds. */
  type Timestamp = int

  /** `timedelta(days=1)` in the model's time unit. */
  const Day: int := 86400

  /** A row of `produtos`. */
  datatype Product = Product(
    id: int,
    nome: string,
    quantidade: int,
    localizacao: Option<string>,
    estoque_minimo: int)

  /** The `status` of a sample that is out with a seller. */
  const EmRua: string := "EM_RUA"

  /** A row of `amostras`. */
  datatype Sample = Sample(
    id: int,
    nome: string,
    codigo_patrimonio: Option<string>,
    status: Option<string>,
    local_fisico: Option<string>,
    vendedor_responsavel: Option<string>,
    cliente_destino: Option<string>,
    logradouro: Option<string>,
    data_saida: Option<Timestamp>,
    data_prevista_retorno: Option<Timestamp>)

  /** A row of `logs_movimentacao`; its own `id` is its position in the log. */
  datatype LogRow = LogRow(
    tipo_item: string,
    item_id: int,
    acao: string,
    quantidade: int,
    usuario_nome: string,
    data_evento: Timestamp)

  /** The whole store: both tables and the movement log. */
  datatype Db = Db(products: seq<Product>, samples: seq<Sample>, log: seq<LogRow>)

  /** `id` is the primary key of both tables. */
  predicate UniqueIds(db: Db) {
    (forall i, j :: 0 <= i < j < |db.products| ==> db.products[i].id != db.products[j].id) &&
    (forall i, j :: 0 <= i < j < |db.samples| ==> db.samples[i].id != db.samples[j].id)
  }

  /** The position of the first element satisfying `p`, if any. */
  function FirstWhere<T>(s: seq<T>, p: T -> bool): (r: Option<nat>)
    ensures r.Some? ==> r.value < |s| && p(s[r.value])
    ensures r.Some? ==> forall j :: 0 <= j < r.value ==> !p(s[j])
    ensures r.None? <==> forall j :: 0 <= j < |s| ==> !p(s[j])
    decreases |s|
  {
    if |s| == 0 then None
    else if p(s[0]) then Some(0)
    else match FirstWhere(s[1..], p)
      case None => None
      case Some(k) => Some(k + 1)
  }

  /** `nome ILIKE '%term%'`: the name contains the term, ignoring case. */
  predicate NameMatches(nome: string, term: string) {
    Contains(Lower(nome), Lower(term))
  }

  /** The case of the search term does not matter. */
  lemma NameMatchIgnoresCase(nome: string, term: string)
    ensures NameMatches(nome, term) <==> NameMatches(nome, Upper(term))
    ensures NameMatches(nome, term) <==> NameMatches(Upper(nome), term)
  {
    LowerOfUpper(term);
    LowerOfUpper(nome);
  }

  /** Any product matches the empty term, and a name matches itself. */
  lemma NameMatchBasics(nome: string)
    ensures NameMatches(nome, "")
    ensures NameMatches(nome, nome)
  {
  }

  /** `i` is the product `.first()` returns for the term. */
  predicate IsFirstMatch(ps: seq<Product>, term: string, i: int) {
    0 <= i < |ps| && NameMatches(ps[i].nome, term) &&
    forall j :: 0 <= j < i ==> !NameMatches(ps[j].nome, term)
  }

  /** The product the bot's name search settles on. */
  function FindByName(ps: seq<Product>, term: string): (r: Option<nat>)
    ensures r.Some? ==> IsFirstMatch(ps, term, r.value)
    ensures r.None? <==> forall j :: 0 <= j < |ps| ==> !NameMatches(ps[j].nome, term)
  {
    FirstWhere(ps, (x: Product) => NameMatches(x.nome, term))
  }

  /** The search is determined: at most one position is the first match. */
  lemma FirstMatchUnique(ps: seq<Product>, term: string, i: int, j: int)
    requires IsFirstMatch(ps, term, i) && IsFirstMatch(ps, term, j)
    ensures i == j
  {
  }

  /** `Produto.query.get_or_404(id)`: the position of the product with that id, if any. */
  function ProductAt(ps: seq<Product>, id: int): (r: Option<nat>)
    ensures r.Some? ==> r.value < |ps| && ps[r.value].id == id
    ensures r.None? <==> forall j :: 0 <= j < |ps| ==> ps[j].id != id
  {
    FirstWhere(ps, (x: Product) => x.id == id)
  }

  /** `Amostra.query.get_or_404(id)`. */
  function SampleAt(ss: seq<Sample>, id: int): (r: Option<nat>)
    ensures r.Some? ==> r.value < |ss| && ss[r.value].id == id
    ensures r.None? <==> forall j :: 0 <= j < |ss| ==> ss[j].id != id
  {
    FirstWhere(ss, (x: Sample) => x.id == id)
  }

  /** With unique ids the lookup by key finds the one row carrying the key. */
  lemma ProductAtIsTheRow(db: Db, id: int, i: int)
    requires UniqueIds(db)
    requires 0 <= i < |db.products| && db.products[i].id == id
    ensures ProductAt(db.products, id) == Some(i)
  {
  }

  lemma SampleAtIsTheRow(db: Db, id: int, i: int)
    requires UniqueIds(db)
    requires 0 <= i < |db.samples| && db.samples[i].id == id
    ensures SampleAt(db.samples, id) == Some(i)
  {
  }
}
