/** The state changes of the application, as functions from the store before a request to the
    store after it: the bot's stock withdrawal (`tool_atualizar_estoque`) and the web action
    handler (`acao`) with its stock-withdrawal and sample-logistics branches. The caller's login
    state, form fields and the current time are parameters. */
module Operations {
  import opened Wrappers
  import opened Text
  import opened Roles
  import opened Tables

  const SlackWithdrawal: string := "SLACK_RETIRADA"
  const BotUser: string := "SlackBot"
  const WebWithdrawal: string := "WEB_RETIRADA"
  const ProductNotFound: string := "Produto não encontrado."

  const Disponivel: string := "DISPONIVEL"
  const Retirar: string := "retirar"
  const Devolver: string := "devolver"
  const LogisticsUpdated: string := "Logística atualizada!"

  const DefaultQtd: int := 1
  const DefaultDias: int := 7

  /** A numeric form field: absent, a text that `int(...)` reads as `n`, or a text it rejects. */
  datatype IntField = Absent | Given(n: int) | Malformed

  /** `int(request.form.get(name, default))`; None where `int(...)` raises. */
  function ReadInt(f: IntField, default: int): (r: Option<int>)
    ensures r.None? <==> f.Malformed?
    ensures f.Absent? ==> r == Some(default)
    ensures f.Given? ==> r == Some(f.n)
  {
    match f
    case Absent => Some(default)
    case Given(n) => Some(n)
    case Malformed => None
  }

  /** The fields of the form posted to `acao`. */
  datatype Form = Form(
    qtd: IntField,
    acaoAmostra: Option<string>,
    clienteDestino: Option<string>,
    logradouro: Option<string>,
    diasPrazo: IntField)

  /** What `acao` answers: a redirect to the login page, a refusal, a 404 from `get_or_404`, a
      500 from an exception before the commit, or the action page with an optional message. */
  datatype Reply = ToLogin | Refused(reason: string) | NotFound | ServerError | Page(message: Option<string>)

  /** The store after a request and the answer to it. */
  datatype Outcome<R> = Outcome(db: Db, reply: R)

  /** The log after appending exactly one row to `log`. */
  predicate AppendsOne(log: seq<LogRow>, log': seq<LogRow>, row: LogRow) {
    |log'| == |log| + 1 && log'[..|log|] == log && log'[|log|] == row
  }

  /** Withdraw `qty` units of the product at position `i` and log it under `acao` and `user`. */
  function Withdrawal(db: Db, i: nat, qty: int, acao: string, user: string, now: Timestamp): (r: Db)
    requires i < |db.products|
    ensures |r.products| == |db.products|
    ensures r.products[i].quantidade == db.products[i].quantidade - qty
    ensures r.products[i].(quantidade := db.products[i].quantidade) == db.products[i]
    ensures forall j :: 0 <= j < |db.products| && j != i ==> r.products[j] == db.products[j]
    ensures r.samples == db.samples
    ensures AppendsOne(db.log, r.log, LogRow(ProductKind, db.products[i].id, acao, qty, user, now))
  {
    var p := db.products[i];
    Db(db.products[i := p.(quantidade := p.quantidade - qty)],
       db.samples,
       db.log + [LogRow(ProductKind, p.id, acao, qty, user, now)])
  }

  /** The bot's confirmation, naming the product and its new quantity. */
  function UpdatedReply(p: Product): (r: string)
    ensures |r| > 0 && r[0] == 'A'
    ensures exists k :: OccursAt(r, p.nome, k)
    ensures exists k :: OccursAt(r, IntText(p.quantidade), k)
  {
    var head, n := "Atualizado! ", IntText(p.quantidade);
    var r := head + p.nome + ": " + n + " un.";
    assert p.nome[0..|p.nome|] == p.nome;
    OccursInSecond(head, p.nome, ": ", n, p.nome, 0);
    OccursInConcat(head + p.nome + ": " + n, " un.", p.nome, |head|);
    assert OccursAt(r, p.nome, |head|);
    assert n[0..|n|] == n;
    OccursInConcat(head + p.nome + ": ", n, n, 0);
    OccursInConcat(head + p.nome + ": " + n, " un.", n, |head + p.nome + ": "|);
    assert OccursAt(r, n, |head + p.nome + ": "|);
    r
  }

  /** `tool_atualizar_estoque(term, qty)`: withdraw from the first product whose name contains the term. */
  function UpdateStock(db: Db, term: string, qty: int, now: Timestamp): (o: Outcome<string>)
    ensures o.reply == ProductNotFound <==>
      forall j :: 0 <= j < |db.products| ==> !NameMatches(db.products[j].nome, term)
    ensures (forall j :: 0 <= j < |db.products| ==> !NameMatches(db.products[j].nome, term)) ==> o.db == db
    ensures forall i :: IsFirstMatch(db.products, term, i) ==>
      o.db == Withdrawal(db, i, qty, SlackWithdrawal, BotUser, now) &&
      o.reply == UpdatedReply(db.products[i].(quantidade := db.products[i].quantidade - qty))
  {
    match FindByName(db.products, term)
    case None => Outcome(db, ProductNotFound)
    case Some(i) =>
      var db' := Withdrawal(db, i, qty, SlackWithdrawal, BotUser, now);
      Outcome(db', UpdatedReply(db'.products[i]))
  }

  /** The fields that no action changes: the row's identity and its fixed attributes. */
  predicate SameIdentity(a: Sample, b: Sample) {
    b.id == a.id && b.nome == a.nome && b.codigo_patrimonio == a.codigo_patrimonio &&
    b.local_fisico == a.local_fisico
  }

  /** `retirar`: the sample leaves with `user` for `cliente` at `logradouro`, due back `dias` days
      after `now`. There is no check of the sample's previous status. */
  function CheckOut(a: Sample, user: string, cliente: Option<string>, logradouro: Option<string>,
                    dias: int, now: Timestamp): (b: Sample)
    ensures SameIdentity(a, b)
    ensures b.status == Some(EmRua) && b.vendedor_responsavel == Some(user)
    ensures b.cliente_destino == cliente && b.logradouro == logradouro
    ensures b.data_saida == Some(now) && b.data_prevista_retorno == Some(now + dias * Day)
  {
    a.(status := Some(EmRua), vendedor_responsavel := Some(user), cliente_destino := cliente,
       logradouro := logradouro, data_saida := Some(now),
       data_prevista_retorno := Some(now + dias * Day))
  }

  /** `devolver`: the sample is available again, with no holder and no client; the address and
      the dates of the last trip stay. There is no check of the sample's previous status. */
  function Return(a: Sample): (b: Sample)
    ensures SameIdentity(a, b)
    ensures b.status == Some(Disponivel) && b.vendedor_responsavel == None && b.cliente_destino == None
    ensures b.logradouro == a.logradouro && b.data_saida == a.data_saida
    ensures b.data_prevista_retorno == a.data_prevista_retorno
  {
    a.(status := Some(Disponivel), vendedor_responsavel := None, cliente_destino := None)
  }

  /** A second check-out needs no return in between: it overwrites everything the first one set. */
  lemma CheckOutOverwrites(a: Sample, u1: string, c1: Option<string>, l1: Option<string>, d1: int, t1: Timestamp,
                           u2: string, c2: Option<string>, l2: Option<string>, d2: int, t2: Timestamp)
    ensures CheckOut(CheckOut(a, u1, c1, l1, d1, t1), u2, c2, l2, d2, t2) == CheckOut(a, u2, c2, l2, d2, t2)
  {
  }

  /** Returning twice is returning once. */
  lemma ReturnIdempotent(a: Sample)
    ensures Return(Return(a)) == Return(a)
  {
  }

  /** After a trip and its return the sample keeps the trip's address and dates. */
  lemma ReturnAfterCheckOut(a: Sample, u: string, c: Option<string>, l: Option<string>, d: int, t: Timestamp)
    ensures var b := Return(CheckOut(a, u, c, l, d, t));
      SameIdentity(a, b) && b.status == Some(Disponivel) && b.vendedor_responsavel == None &&
      b.cliente_destino == None && b.logradouro == l && b.data_saida == Some(t) &&
      b.data_prevista_retorno == Some(t + d * Day)
  {
  }

  /** The sample after a POST naming `action`; None when `int(dias_prazo)` raises. Any action
      other than `retirar` and `devolver` leaves the sample as it was. */
  function Logistics(a: Sample, action: string, user: string, form: Form, now: Timestamp): (r: Option<Sample>)
    ensures r.None? <==> action == Retirar && form.diasPrazo.Malformed?
    ensures r.Some? ==> SameIdentity(a, r.value)
    ensures action == Retirar && r.Some? ==>
      r.value == CheckOut(a, user, form.clienteDestino, form.logradouro, ReadInt(form.diasPrazo, DefaultDias).value, now)
    ensures action == Devolver ==> r == Some(Return(a))
    ensures action != Retirar && action != Devolver ==> r == Some(a)
  {
    if action == Retirar then
      match ReadInt(form.diasPrazo, DefaultDias)
      case None => None
      case Some(dias) => Some(CheckOut(a, user, form.clienteDestino, form.logradouro, dias, now))
    else if action == Devolver then Some(Return(a))
    else Some(a)
  }

  /** The `produto` branch of `acao` for a logged-in user the block let through. */
  function ProductAction(db: Db, user: string, id: nat, isPost: bool, form: Form, now: Timestamp): (o: Outcome<Reply>)
    ensures ProductAt(db.products, id).None? ==> o == Outcome(db, NotFound)
    ensures ProductAt(db.products, id).Some? && !isPost ==> o == Outcome(db, Page(None))
    ensures ProductAt(db.products, id).Some? && isPost && form.qtd.Malformed? ==> o == Outcome(db, ServerError)
    ensures forall i, q :: ProductAt(db.products, id) == Some(i) && isPost && ReadInt(form.qtd, DefaultQtd) == Some(q) ==>
      o.db == Withdrawal(db, i, q, WebWithdrawal, user, now) &&
      o.reply == Page(Some("Retirado " + IntText(q) + " un de " + db.products[i].nome + "."))
  {
    match ProductAt(db.products, id)
    case None => Outcome(db, NotFound)
    case Some(i) =>
      if !isPost then Outcome(db, Page(None))
      else match ReadInt(form.qtd, DefaultQtd)
        case None => Outcome(db, ServerError)
        case Some(q) =>
          Outcome(Withdrawal(db, i, q, WebWithdrawal, user, now),
                  Page(Some("Retirado " + IntText(q) + " un de " + db.products[i].nome + ".")))
  }

  /** The `amostra` branch of `acao` for a logged-in user the block let through. Every POST that
      names an action logs one row, a recognised action or not; a POST without an action fails on
      `None.upper()` before anything is committed. */
  function SampleAction(db: Db, user: string, id: nat, isPost: bool, form: Form, now: Timestamp): (o: Outcome<Reply>)
    ensures SampleAt(db.samples, id).None? ==> o == Outcome(db, NotFound)
    ensures SampleAt(db.samples, id).Some? && !isPost ==> o == Outcome(db, Page(None))
    ensures SampleAt(db.samples, id).Some? && isPost && form.acaoAmostra.None? ==> o == Outcome(db, ServerError)
    ensures forall i, action :: SampleAt(db.samples, id) == Some(i) && isPost && form.acaoAmostra == Some(action) ==>
      match Logistics(db.samples[i], action, user, form, now)
      case None => o == Outcome(db, ServerError)
      case Some(b) =>
        o.db.products == db.products && o.db.samples == db.samples[i := b] &&
        AppendsOne(db.log, o.db.log, LogRow(SampleKind, db.samples[i].id, Upper(action), 1, user, now)) &&
        o.reply == Page(Some(LogisticsUpdated))
  {
    match SampleAt(db.samples, id)
    case None => Outcome(db, NotFound)
    case Some(i) =>
      if !isPost then Outcome(db, Page(None))
      else match form.acaoAmostra
        case None => Outcome(db, ServerError)
        case Some(action) =>
          match Logistics(db.samples[i], action, user, form, now)
          case None => Outcome(db, ServerError)
          case Some(b) =>
            // The log row's quantity is the column default, 1.
            Outcome(Db(db.products, db.samples[i := b],
                       db.log + [LogRow(SampleKind, db.samples[i].id, Upper(action), 1, user, now)]),
                    Page(Some(LogisticsUpdated)))
  }

  /** `acao(kind, id)`: the web action handler. */
  function Action(db: Db, session: Session, kind: string, id: nat, isPost: bool, form: Form, now: Timestamp): (o: Outcome<Reply>)
    ensures session.userEmail.None? ==> o == Outcome(db, ToLogin)
    ensures session.userEmail.Some? && AccessDenial(kind, SessionRole(session)).Some? ==>
      o == Outcome(db, Refused(AccessDenial(kind, SessionRole(session)).value))
    ensures session.userEmail.Some? && AccessDenial(kind, SessionRole(session)).None? && kind == ProductKind ==>
      o == ProductAction(db, session.userEmail.value, id, isPost, form, now)
    ensures session.userEmail.Some? && AccessDenial(kind, SessionRole(session)).None? && kind == SampleKind ==>
      o == SampleAction(db, session.userEmail.value, id, isPost, form, now)
    ensures session.userEmail.Some? && kind != ProductKind && kind != SampleKind ==> o == Outcome(db, Page(None))
    ensures !isPost ==> o.db == db
    ensures o.reply.ToLogin? || o.reply.Refused? || o.reply.NotFound? || o.reply.ServerError? ==> o.db == db
    ensures o.db == db || exists row :: AppendsOne(db.log, o.db.log, row)
    ensures |o.db.products| == |db.products| && |o.db.samples| == |db.samples|
  {
    match session.userEmail
    case None => Outcome(db, ToLogin)
    case Some(user) =>
      match AccessDenial(kind, SessionRole(session))
      case Some(message) => Outcome(db, Refused(message))
      case None =>
        if kind == ProductKind then ProductAction(db, user, id, isPost, form, now)
        else if kind == SampleKind then SampleAction(db, user, id, isPost, form, now)
        else Outcome(db, Page(None))
  }

  /** The dashboard page: a redirect for a visitor without a login, or the tables the role may see. */
  datatype DashboardPage =
    | DashboardToLogin
    | DashboardView(produtos: seq<Product>, amostras: seq<Sample>, user: string, role: string)

  /** `dashboard()`. Each listed table holds every row of the store (the page orders them, which
      the model does not). */
  function Dashboard(db: Db, session: Session): (d: DashboardPage)
    ensures d.DashboardToLogin? <==> session.userEmail.None?
    ensures d.DashboardView? ==> d.user == session.userEmail.value && d.role == SessionRole(session)
    ensures d.DashboardView? ==>
      multiset(d.produtos) == (if d.role in {Administrator, Compras} then multiset(db.products) else multiset{})
    ensures d.DashboardView? ==>
      multiset(d.amostras) == (if d.role in {Administrator, Vendas} then multiset(db.samples) else multiset{})
  {
    match session.userEmail
    case None => DashboardToLogin
    case Some(user) =>
      var role := SessionRole(session);
      var v := DashboardVisibility(role);
      DashboardView(if v.seesProducts then db.products else [],
                    if v.seesSamples then db.samples else [],
                    user, role)
  }
}
